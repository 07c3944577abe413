/** The signaling server as a whole: any number of connections that share the registry. What happens under a lock is one
    step; what a connection has to send to others goes out message by message, in between the steps of the others. */
module Server {
  import opened Basics
  import opened Model
  import opened Registry

  datatype Request =
    | Revise(info: ClientInfoWithoutId)
    | SendOffer(sessionId: string, target: Uuid, sdp: string)
    | SendAnswer(sessionId: string, target: Uuid, sdp: string)

  datatype Phase =
    | Greeting  // registered; Join messages and the Hello are being sent
    | Running   // requests are taken
    | Closing   // one of the two tasks has ended and the other one is to be aborted
    | Gone      // no longer registered; Left messages are being sent

  /** The task that takes requests, one at a time. */
  datatype Worker =
    | Absent   // not started yet, ended or aborted
    | Busy
    | Leaving  // over the request limit, with the error still to be sent

  datatype Envelope = Envelope(to: Uuid, msg: ServerMessage)

  /** `out` is what the connection itself has to send, and `work` what its worker has to send. `todo` is a request that
      was counted but not carried out; `asked` lists all that were counted. */
  datatype Conn = Conn(group: string, peer: ClientInfo, phase: Phase, out: seq<Envelope>,
                       worker: Worker, todo: Option<Request>, work: seq<Envelope>, asked: seq<Request>)

  /** `logs` holds what was put into each connection's own queue. */
  datatype State = State(rooms: Rooms, counts: Counts, conns: map<Uuid, Conn>, logs: map<Uuid, seq<ServerMessage>>)

  const INITIAL: State := State(map[], map[], map[], map[])

  const TOO_MANY_REQUESTS: u16 := 429

  datatype Step =
    | Connect(group: string, peer: ClientInfo, order: seq<Uuid>)
    | Deliver(id: Uuid)                   // the connection sends its next message
    | Send(id: Uuid)                      // its worker sends its next message
    | Ask(id: Uuid, request: Request)
    | Handle(id: Uuid, order: seq<Uuid>)
    | Close(id: Uuid)
    | Abort(id: Uuid)                     // the abort takes effect, at the worker's next await
    | Remove(id: Uuid, order: seq<Uuid>)
    | Clear

  predicate Enabled(g: State, step: Step) {
    match step
    case Connect(group, peer, order) =>
      // The identifier is a fresh random UUID.
      peer.id !in g.conns && peer.id !in Room(g.rooms, group) && IsOrder(order, Room(g.rooms, group).Keys)
    case Deliver(id) => id in g.conns && g.conns[id].out != []
    case Send(id) => id in g.conns && g.conns[id].work != []
    case Ask(id, _) => id in g.conns && g.conns[id].worker.Busy? && g.conns[id].todo.None? && g.conns[id].work == []
    case Handle(id, order) =>
      && id in g.conns && g.conns[id].todo.Some?
      && IsOrder(order, Room(g.rooms, g.conns[id].group).Keys - {id})
    case Close(id) => id in g.conns && g.conns[id].phase.Running?
    case Abort(id) => id in g.conns && (g.conns[id].phase.Closing? || g.conns[id].phase.Gone?)
    case Remove(id, order) =>
      id in g.conns && g.conns[id].phase.Closing? && IsOrder(order, Room(g.rooms, g.conns[id].group).Keys - {id})
    case Clear => true
  }

  /** The same message to everyone in `order`. */
  function ToAll(order: seq<Uuid>, msg: ServerMessage): seq<Envelope> {
    if order == [] then [] else [Envelope(order[0], msg)] + ToAll(order[1..], msg)
  }

  function Connected(limits: Limits, g: State, group: string, peer: ClientInfo, order: seq<Uuid>): State
    requires forall x :: x in order ==> x in Room(g.rooms, group)
  {
    match Registered(limits, g.rooms, g.counts, group, peer)
    case (false, rooms, counts) => g.(rooms := rooms, counts := counts)
    case (true, rooms, counts) =>
      var hello := Hello(peer, Infos(Room(g.rooms, group), order));
      var out := ToAll(order, Join(peer)) + [Envelope(peer.id, hello)];
      var conn := Conn(group, peer, Greeting, out, Absent, None, [], []);
      State(rooms, counts, g.conns[peer.id := conn], g.logs[peer.id := []])
  }

  /** The worker starts when the greeting is over. */
  function Delivered(conn: Conn): Conn
    requires conn.out != []
  {
    var started := conn.phase.Greeting? && |conn.out| == 1;
    conn.(out := conn.out[1..], phase := if started then Running else conn.phase,
          worker := if started then Busy else conn.worker)
  }

  /** A worker over the limit ends with its error. */
  function WorkSent(conn: Conn): Conn
    requires conn.work != []
  {
    conn.(work := conn.work[1..],
          worker := if conn.worker.Leaving? && |conn.work| == 1 then Absent else conn.worker)
  }

  /** A message for a connection that was never admitted cannot arise; one for a dead connection is lost with its queue. */
  function Logged(logs: map<Uuid, seq<ServerMessage>>, e: Envelope): map<Uuid, seq<ServerMessage>> {
    if e.to in logs then logs[e.to := logs[e.to] + [e.msg]] else logs
  }

  function Asked(limits: Limits, g: State, id: Uuid, request: Request): State
    requires id in g.conns
  {
    var conn := g.conns[id];
    var (ok, counts) := Protected(limits, g.counts, conn.group);
    var conn' :=
      if ok then conn.(todo := Some(request), asked := conn.asked + [request])
      else conn.(worker := Leaving, work := [Envelope(id, Error(TOO_MANY_REQUESTS))]);
    g.(counts := counts, conns := g.conns[id := conn'])
  }

  /** The messages a request gives rise to. They bear what the origin said about itself when it connected. */
  function Answering(g: State, id: Uuid, request: Request, order: seq<Uuid>): seq<Envelope>
    requires id in g.conns
  {
    var conn := g.conns[id];
    var room := Room(g.rooms, conn.group);
    match request
    case Revise(info) => if id in room then ToAll(order, ServerMessage.Update(ClientInfo(id, info))) else []
    case SendOffer(sessionId, target, sdp) =>
      if target in room then [Envelope(target, Offer(SdpMessage(conn.peer, sessionId, sdp)))] else []
    case SendAnswer(sessionId, target, sdp) =>
      if target in room then [Envelope(target, Answer(SdpMessage(conn.peer, sessionId, sdp)))] else []
  }

  function Handled(g: State, id: Uuid, order: seq<Uuid>): State
    requires id in g.conns && g.conns[id].todo.Some?
  {
    var conn := g.conns[id];
    g.(rooms := if conn.todo.value.Revise? then Revised(g.rooms, conn.group, id, conn.todo.value.info) else g.rooms,
       conns := g.conns[id := conn.(todo := None, work := Answering(g, id, conn.todo.value, order))])
  }

  function Removed(g: State, id: Uuid, order: seq<Uuid>): State
    requires id in g.conns
  {
    var conn := g.conns[id];
    g.(rooms := Dismissed(g.rooms, conn.group, id),
       conns := g.conns[id := conn.(phase := Gone, out := ToAll(order, Left(id)))])
  }

  function Next(limits: Limits, g: State, step: Step): State
    requires Enabled(g, step)
  {
    match step
    case Connect(group, peer, order) => Connected(limits, g, group, peer, order)
    case Deliver(id) =>
      var conn := g.conns[id];
      g.(conns := g.conns[id := Delivered(conn)], logs := Logged(g.logs, conn.out[0]))
    case Send(id) =>
      var conn := g.conns[id];
      g.(conns := g.conns[id := WorkSent(conn)], logs := Logged(g.logs, conn.work[0]))
    case Ask(id, request) => Asked(limits, g, id, request)
    case Handle(id, order) => Handled(g, id, order)
    case Close(id) => g.(conns := g.conns[id := g.conns[id].(phase := Closing)])
    case Abort(id) => g.(conns := g.conns[id := g.conns[id].(worker := Absent, todo := None, work := [])])
    case Remove(id, order) => Removed(g, id, order)
    case Clear => g.(counts := map[])
  }

  function Run(limits: Limits, steps: seq<Step>): Option<State>
    decreases |steps|
  {
    if steps == [] then Some(INITIAL)
    else
      match Run(limits, steps[..|steps| - 1])
      case None => None
      case Some(g) =>
        var step := steps[|steps| - 1];
        if Enabled(g, step) then Some(Next(limits, g, step)) else None
  }

  /** Admitted and not yet removed. */
  predicate Present(g: State, id: Uuid) {
    id in g.conns && !g.conns[id].phase.Gone?
  }

  predicate Together(g: State, x: Uuid, y: Uuid) {
    x in g.conns && y in g.conns && g.conns[x].group == g.conns[y].group
  }

  // ---- What holds of every state ----------------------------------------------------------------

  /** What a connection may have to send itself, and to whom. */
  predicate Proper(g: State, z: Uuid, e: Envelope)
    requires z in g.conns
  {
    && Together(g, z, e.to)
    && match e.msg
       case Hello(client, peers) => e.to == z && client == g.conns[z].peer && g.conns[z].phase.Greeting?
       case Join(peer) => e.to != z && peer.id == z && g.conns[z].phase.Greeting?
       case Left(id) => e.to != z && id == z && g.conns[z].phase.Gone?
       case _ => false
  }

  /** What its worker may have to send, and to whom. */
  predicate Fitting(g: State, z: Uuid, e: Envelope)
    requires z in g.conns
  {
    && Together(g, z, e.to)
    && match e.msg
       case Update(peer) => e.to != z && peer.id == z
       case Offer(sdp) => sdp.peer == g.conns[z].peer
       case Answer(sdp) => sdp.peer == g.conns[z].peer
       case Error(_) => e.to == z
       case _ => false
  }

  /** The registry holds exactly the connections admitted and not yet removed. */
  ghost predicate RoomsAgree(g: State) {
    forall group, x :: x in Room(g.rooms, group) <==> Present(g, x) && g.conns[x].group == group
  }

  ghost predicate ConnsAgree(g: State) {
    && g.logs.Keys == g.conns.Keys
    && (forall z, e :: z in g.conns && e in g.conns[z].out ==> Proper(g, z, e))
    && (forall z, e :: z in g.conns && e in g.conns[z].work ==> Fitting(g, z, e))
    && (forall z :: z in g.conns ==> g.conns[z].peer.id == z)
    && (forall z :: z in g.conns ==> Orderly(g.conns[z]))
  }

  /** The connection sends only while it greets and once it is gone; the worker carries out one request after another. */
  predicate Orderly(conn: Conn) {
    && (conn.phase.Running? || conn.phase.Closing? ==> conn.out == [])
    && (conn.todo.Some? ==> conn.work == [])
    && (conn.phase.Greeting? ==> conn.worker.Absent?)
    && (conn.worker.Absent? ==> conn.todo.None? && conn.work == [])
  }

  ghost predicate Bounded(limits: Limits, g: State) {
    && (forall group :: |Room(g.rooms, group)| <= limits.connections)
    && (forall group :: CountOf(g.counts, group) <= limits.requests)
  }

  ghost predicate Sound(limits: Limits, g: State) {
    RoomsAgree(g) && ConnsAgree(g) && Bounded(limits, g)
  }

  lemma {:induction false} ToAllIn(order: seq<Uuid>, msg: ServerMessage, e: Envelope)
    ensures e in ToAll(order, msg) <==> e.to in order && e.msg == msg
  {
    if order != [] {
      ToAllIn(order[1..], msg, e);
      assert order == [order[0]] + order[1..];
    }
  }

  lemma ConnectKeeps(limits: Limits, g: State, group: string, peer: ClientInfo, order: seq<Uuid>)
    requires Sound(limits, g) && Enabled(g, Connect(group, peer, order))
    ensures Sound(limits, Connected(limits, g, group, peer, order))
  {
    hide RoomsAgree, ConnsAgree, Bounded, Registered;
    ConnectRooms(limits, g, group, peer, order);
    if Registered(limits, g.rooms, g.counts, group, peer).0 {
      ConnectProper(limits, g, group, peer, order);
    } else {
      ConnsDependOn(g, Connected(limits, g, group, peer, order));
    }
  }

  /** The registry's contents are no concern of the outboxes. */
  lemma ConnsDependOn(g: State, g': State)
    requires ConnsAgree(g) && g'.conns == g.conns && g'.logs == g.logs
    ensures ConnsAgree(g')
  {
    forall z, e | z in g'.conns && e in g'.conns[z].out ensures Proper(g', z, e) {
      assert Proper(g, z, e);
    }
    forall z, e | z in g'.conns && e in g'.conns[z].work ensures Fitting(g', z, e) {
      assert Fitting(g, z, e);
    }
  }

  lemma ConnectRooms(limits: Limits, g: State, group: string, peer: ClientInfo, order: seq<Uuid>)
    requires RoomsAgree(g) && Bounded(limits, g) && Enabled(g, Connect(group, peer, order))
    ensures RoomsAgree(Connected(limits, g, group, peer, order))
    ensures Bounded(limits, Connected(limits, g, group, peer, order))
  {
    hide Registered;
    var g' := Connected(limits, g, group, peer, order);
    var (admitted, rooms', counts') := Registered(limits, g.rooms, g.counts, group, peer);
    AdmittedIff(limits, g.rooms, g.counts, group, peer);
    CountedWithin(limits, g.rooms, g.counts, group, peer);
    MapGrows(Room(g.rooms, group), peer.id, peer.info);
    assert forall other :: |Room(g.rooms, other)| <= limits.connections;
    forall other, x ensures x in Room(g'.rooms, other) <==> Present(g', x) && g'.conns[x].group == other {
      assert Room(g'.rooms, other) ==
               if admitted && other == group then Room(g.rooms, group)[peer.id := peer.info] else Room(g.rooms, other);
      assert x in Room(g.rooms, other) <==> Present(g, x) && g.conns[x].group == other;
    }
  }

  lemma CountedWithin(limits: Limits, rooms: Rooms, counts: Counts, group: string, peer: ClientInfo)
    requires forall other :: CountOf(counts, other) <= limits.requests
    ensures forall other :: CountOf(Registered(limits, rooms, counts, group, peer).2, other) <= limits.requests
    ensures forall other :: CountOf(Protected(limits, counts, group).1, other) <= limits.requests
  {
    var counts' := Registered(limits, rooms, counts, group, peer).2;
    forall other ensures CountOf(counts', other) <= limits.requests {
      assert CountOf(counts, other) <= limits.requests && CountOf(counts, group) <= limits.requests;
    }
    forall other ensures CountOf(Protected(limits, counts, group).1, other) <= limits.requests {
      assert CountOf(counts, other) <= limits.requests && CountOf(counts, group) <= limits.requests;
    }
  }

  lemma ConnectProper(limits: Limits, g: State, group: string, peer: ClientInfo, order: seq<Uuid>)
    requires Sound(limits, g) && Enabled(g, Connect(group, peer, order))
    requires Registered(limits, g.rooms, g.counts, group, peer).0
    ensures ConnsAgree(Connected(limits, g, group, peer, order))
  {
    hide Registered, ToAll, Infos;
    var g' := Connected(limits, g, group, peer, order);
    forall z, e | z in g'.conns && e in g'.conns[z].out ensures Proper(g', z, e) {
      if z == peer.id {
        GreetingProper(limits, g, group, peer, order, e);
      } else {
        assert Proper(g, z, e);
      }
    }
    forall z, e | z in g'.conns && e in g'.conns[z].work ensures Fitting(g', z, e) {
      assert Fitting(g, z, e);
    }
  }

  lemma GreetingProper(limits: Limits, g: State, group: string, peer: ClientInfo, order: seq<Uuid>, e: Envelope)
    requires RoomsAgree(g) && Enabled(g, Connect(group, peer, order))
    requires Registered(limits, g.rooms, g.counts, group, peer).0
    requires e in Connected(limits, g, group, peer, order).conns[peer.id].out
    ensures Proper(Connected(limits, g, group, peer, order), peer.id, e)
  {
    hide Registered, ToAll, Infos;
    ToAllIn(order, Join(peer), e);
  }

  /** A step that touches the queues of one connection, or its phase, but neither its group nor the room it is in. */
  lemma OneChanges(limits: Limits, g: State, g': State, id: Uuid)
    requires Sound(limits, g) && id in g.conns && g'.rooms == g.rooms && g'.counts == g.counts
    requires id in g'.conns && g'.conns == g.conns[id := g'.conns[id]] && g'.logs.Keys == g.logs.Keys
    requires var (conn, conn') := (g.conns[id], g'.conns[id]);
             && conn'.group == conn.group && conn'.peer == conn.peer && Orderly(conn')
             && (conn'.phase.Gone? <==> conn.phase.Gone?)
             && (conn'.phase == conn.phase || conn'.out == [])
             && (forall e :: e in conn'.out ==> e in conn.out) && (forall e :: e in conn'.work ==> e in conn.work)
    ensures Sound(limits, g')
  {
    SamePresence(g, g');
    forall z, e | z in g'.conns && e in g'.conns[z].out ensures Proper(g', z, e) {
      assert Proper(g, z, e);
    }
    forall z, e | z in g'.conns && e in g'.conns[z].work ensures Fitting(g', z, e) {
      assert Fitting(g, z, e);
    }
  }

  lemma DeliverKeeps(limits: Limits, g: State, id: Uuid)
    requires Sound(limits, g) && Enabled(g, Deliver(id))
    ensures Sound(limits, Next(limits, g, Deliver(id)))
  {
    assert g.conns[id].out[0] in g.conns[id].out && Proper(g, id, g.conns[id].out[0]);
    hide RoomsAgree, Bounded;
    OneChanges(limits, g, Next(limits, g, Deliver(id)), id);
  }

  lemma SendKeeps(limits: Limits, g: State, id: Uuid)
    requires Sound(limits, g) && Enabled(g, Send(id))
    ensures Sound(limits, Next(limits, g, Send(id)))
  {
    assert g.conns[id].work[0] in g.conns[id].work && Fitting(g, id, g.conns[id].work[0]);
    hide RoomsAgree, Bounded;
    OneChanges(limits, g, Next(limits, g, Send(id)), id);
  }

  lemma AskKeeps(limits: Limits, g: State, id: Uuid, request: Request)
    requires Sound(limits, g) && Enabled(g, Ask(id, request))
    ensures Sound(limits, Asked(limits, g, id, request))
  {
    hide Protected, ConnsAgree;
    CountedWithin(limits, g.rooms, g.counts, g.conns[id].group, g.conns[id].peer);
    SamePresence(g, Asked(limits, g, id, request));
    AskProper(limits, g, id, request);
  }

  lemma AskProper(limits: Limits, g: State, id: Uuid, request: Request)
    requires ConnsAgree(g) && Enabled(g, Ask(id, request))
    ensures ConnsAgree(Asked(limits, g, id, request))
  {
    hide Protected;
    var g' := Asked(limits, g, id, request);
    forall z, e | z in g'.conns && e in g'.conns[z].out ensures Proper(g', z, e) {
      assert Proper(g, z, e);
    }
    forall z, e | z in g'.conns && e in g'.conns[z].work ensures Fitting(g', z, e) {
      assert z != id ==> Fitting(g, z, e);
    }
  }

  /** Steps that leave the rooms' keys alone and neither admit nor remove anyone. */
  lemma SamePresence(g: State, g': State)
    requires RoomsAgree(g) && g'.conns.Keys == g.conns.Keys
    requires forall group :: Room(g'.rooms, group).Keys == Room(g.rooms, group).Keys
    requires forall x :: x in g.conns ==>
               && g'.conns[x].group == g.conns[x].group
               && (g'.conns[x].phase.Gone? <==> g.conns[x].phase.Gone?)
    ensures RoomsAgree(g')
  {
    forall group, x ensures x in Room(g'.rooms, group) <==> Present(g', x) && g'.conns[x].group == group {
      assert Room(g'.rooms, group).Keys == Room(g.rooms, group).Keys;
      assert x in Room(g.rooms, group) <==> Present(g, x) && g.conns[x].group == group;
    }
  }

  lemma HandleKeeps(limits: Limits, g: State, id: Uuid, order: seq<Uuid>)
    requires Sound(limits, g) && Enabled(g, Handle(id, order))
    ensures Sound(limits, Handled(g, id, order))
  {
    var g' := Handled(g, id, order);
    HandleRooms(g, id, order);
    HandleProper(g, id, order);
  }

  lemma HandleRooms(g: State, id: Uuid, order: seq<Uuid>)
    requires id in g.conns && g.conns[id].todo.Some?
    ensures forall group :: Room(Handled(g, id, order).rooms, group).Keys == Room(g.rooms, group).Keys
    ensures forall group :: |Room(Handled(g, id, order).rooms, group)| == |Room(g.rooms, group)|
  {
    var conn, g' := g.conns[id], Handled(g, id, order);
    forall group ensures Room(g'.rooms, group).Keys == Room(g.rooms, group).Keys
                      && |Room(g'.rooms, group)| == |Room(g.rooms, group)|
    {
      if conn.todo.value.Revise? {
        RevisionAddsNobody(g.rooms, conn.group, id, conn.todo.value.info, group);
      }
      assert |Room(g'.rooms, group).Keys| == |Room(g'.rooms, group)|;
      assert |Room(g.rooms, group).Keys| == |Room(g.rooms, group)|;
    }
  }

  lemma HandleProper(g: State, id: Uuid, order: seq<Uuid>)
    requires RoomsAgree(g) && ConnsAgree(g) && Enabled(g, Handle(id, order))
    ensures ConnsAgree(Handled(g, id, order))
  {
    var conn, g' := g.conns[id], Handled(g, id, order);
    forall z, e | z in g'.conns && e in g'.conns[z].out ensures Proper(g', z, e) {
      assert Proper(g, z, e);
    }
    forall z, e | z in g'.conns && e in g'.conns[z].work ensures Fitting(g', z, e) {
      if z == id {
        if conn.todo.value.Revise? {
          ToAllIn(order, ServerMessage.Update(ClientInfo(id, conn.todo.value.info)), e);
        }
      } else {
        assert Fitting(g, z, e);
      }
    }
  }

  lemma CloseKeeps(limits: Limits, g: State, id: Uuid)
    requires Sound(limits, g) && (Enabled(g, Close(id)) || Enabled(g, Abort(id)))
    ensures Enabled(g, Close(id)) ==> Sound(limits, Next(limits, g, Close(id)))
    ensures Enabled(g, Abort(id)) ==> Sound(limits, Next(limits, g, Abort(id)))
  {
    hide RoomsAgree, Bounded;
    if Enabled(g, Close(id)) {
      OneChanges(limits, g, Next(limits, g, Close(id)), id);
    } else {
      OneChanges(limits, g, Next(limits, g, Abort(id)), id);
    }
  }

  lemma RemoveKeeps(limits: Limits, g: State, id: Uuid, order: seq<Uuid>)
    requires Sound(limits, g) && Enabled(g, Remove(id, order))
    ensures Sound(limits, Removed(g, id, order))
  {
    RemoveRooms(limits, g, id, order);
    var g' := Removed(g, id, order);
    forall z, e | z in g'.conns && e in g'.conns[z].out ensures Proper(g', z, e) {
      if z == id {
        ToAllIn(order, Left(id), e);
      } else {
        assert Proper(g, z, e);
      }
    }
    forall z, e | z in g'.conns && e in g'.conns[z].work ensures Fitting(g', z, e) {
      assert Fitting(g, z, e);
    }
  }

  lemma RemoveRooms(limits: Limits, g: State, id: Uuid, order: seq<Uuid>)
    requires RoomsAgree(g) && Bounded(limits, g) && id in g.conns
    ensures RoomsAgree(Removed(g, id, order)) && Bounded(limits, Removed(g, id, order))
  {
    RemoveFits(limits, g, id, order);
    hide Dismissed, Bounded, Room;
    var g', group := Removed(g, id, order), g.conns[id].group;
    forall other, x ensures x in Room(g'.rooms, other) <==> Present(g', x) && g'.conns[x].group == other {
      DismissedRoom(g.rooms, group, id, other);
      assert x in Room(g.rooms, other) <==> Present(g, x) && g.conns[x].group == other;
    }
  }

  lemma RemoveFits(limits: Limits, g: State, id: Uuid, order: seq<Uuid>)
    requires Bounded(limits, g) && id in g.conns
    ensures Bounded(limits, Removed(g, id, order))
  {
    hide Dismissed, Room;
    var g', group := Removed(g, id, order), g.conns[id].group;
    forall other ensures |Room(g'.rooms, other)| <= limits.connections {
      DismissedRoom(g.rooms, group, id, other);
      MapShrinks(Room(g.rooms, group), id);
      assert |Room(g.rooms, other)| <= limits.connections;
    }
    assert g'.counts == g.counts;
  }

  lemma MapShrinks<K, V>(m: map<K, V>, k: K)
    ensures |m - {k}| <= |m|
  {
    assert (m - {k}).Keys == m.Keys - {k};
    assert |(m - {k}).Keys| == |m - {k}| && |m.Keys| == |m|;
  }

  /** Every step keeps all of it. */
  lemma NextKeeps(limits: Limits, g: State, step: Step)
    requires Sound(limits, g) && Enabled(g, step)
    ensures Sound(limits, Next(limits, g, step))
  {
    hide RoomsAgree, ConnsAgree, Bounded;
    match step
    case Connect(group, peer, order) => ConnectKeeps(limits, g, group, peer, order);
    case Deliver(id) => DeliverKeeps(limits, g, id);
    case Ask(id, request) => AskKeeps(limits, g, id, request);
    case Handle(id, order) => HandleKeeps(limits, g, id, order);
    case Send(id) => SendKeeps(limits, g, id);
    case Close(id) => CloseKeeps(limits, g, id);
    case Abort(id) => CloseKeeps(limits, g, id);
    case Remove(id, order) => RemoveKeeps(limits, g, id, order);
    case Clear => ClearKeeps(limits, g);
  }

  lemma ClearKeeps(limits: Limits, g: State)
    requires Sound(limits, g)
    ensures Sound(limits, g.(counts := map[]))
  {
    SamePresence(g, g.(counts := map[]));
    ConnsDependOn(g, g.(counts := map[]));
  }

  /** In every reachable state the registry is exactly the set of connections admitted and not yet removed, no room
      holds more than its limit, and no counter exceeds its own. */
  lemma {:induction false} RunSound(limits: Limits, steps: seq<Step>, g: State)
    requires Run(limits, steps) == Some(g)
    ensures Sound(limits, g)
    decreases |steps|
  {
    hide Next, Enabled;
    if steps != [] {
      var n := |steps| - 1;
      RunSound(limits, steps[..n], Run(limits, steps[..n]).value);
      NextKeeps(limits, Run(limits, steps[..n]).value, steps[n]);
    }
  }

  // ---- The request counters ---------------------------------------------------------------------

  /** Whether a step asks for one more request of a group. A peer refused for lack of room never gets that far. */
  predicate Counts(limits: Limits, g: State, step: Step, group: string) {
    match step
    case Connect(group', _, _) => group' == group && |Room(g.rooms, group)| < limits.connections
    case Ask(id, _) => id in g.conns && g.conns[id].group == group
    case _ => false
  }

  /** How many requests of a group reached its counter since the last time all counters were cleared. */
  function Reached(limits: Limits, steps: seq<Step>, group: string): nat
    decreases |steps|
  {
    if steps == [] then 0
    else
      var n := |steps| - 1;
      match Run(limits, steps[..n])
      case None => 0
      case Some(g) =>
        if steps[n].Clear? then 0
        else Reached(limits, steps[..n], group) + (if Counts(limits, g, steps[n], group) then 1 else 0)
  }

  /** A counter is the number of requests since the last clearing, capped by the limit. */
  lemma {:induction false} CounterIsReached(limits: Limits, steps: seq<Step>, g: State, group: string)
    requires Run(limits, steps) == Some(g)
    ensures CountOf(g.counts, group) == Capped(Reached(limits, steps, group), limits.requests)
    decreases |steps|
  {
    if steps != [] {
      var n := |steps| - 1;
      CounterIsReached(limits, steps[..n], Run(limits, steps[..n]).value, group);
      CounterStep(limits, Run(limits, steps[..n]).value, steps[n], group);
    }
  }

  lemma CounterStep(limits: Limits, g: State, step: Step, group: string)
    requires Enabled(g, step) && CountOf(g.counts, group) <= limits.requests
    ensures CountOf(Next(limits, g, step).counts, group) ==
            if step.Clear? then 0
            else if Counts(limits, g, step, group) && CountOf(g.counts, group) < limits.requests
            then CountOf(g.counts, group) + 1
            else CountOf(g.counts, group)
  {
  }

  // ---- Entries without a peer -------------------------------------------------------------------

  /** The last connection that came to the group was refused, with nobody there. */
  predicate LastCameToNobody(limits: Limits, steps: seq<Step>, group: string)
    decreases |steps|
  {
    steps != [] &&
    var n := |steps| - 1;
    match Run(limits, steps[..n])
    case None => false
    case Some(g) =>
      if steps[n].Connect? && steps[n].group == group then
        Room(g.rooms, group) == map[] && !Registered(limits, g.rooms, g.counts, group, steps[n].peer).0
      else LastCameToNobody(limits, steps[..n], group)
  }

  predicate EmptyEntry(rooms: Rooms, group: string) {
    group in rooms && rooms[group] == map[]
  }

  /** A group's entry goes with its last peer, but a refused connection can leave one that stays without a peer: for as
      long as all further connections to the group are refused as well. */
  lemma {:induction false} EmptyEntryIff(limits: Limits, steps: seq<Step>, g: State, group: string)
    requires Run(limits, steps) == Some(g)
    ensures EmptyEntry(g.rooms, group) <==> LastCameToNobody(limits, steps, group)
    decreases |steps|
  {
    if steps != [] {
      hide Next, Enabled, EmptyEntry, Sound;
      var n := |steps| - 1;
      var before := Run(limits, steps[..n]).value;
      RunSound(limits, steps[..n], before);
      EmptyEntryIff(limits, steps[..n], before, group);
      EmptyEntryStep(limits, before, steps[n], group);
    }
  }

  lemma EmptyEntryStep(limits: Limits, g: State, step: Step, group: string)
    requires Sound(limits, g) && Enabled(g, step)
    ensures EmptyEntry(Next(limits, g, step).rooms, group) <==>
            if step.Connect? && step.group == group
            then Room(g.rooms, group) == map[] && !Registered(limits, g.rooms, g.counts, group, step.peer).0
            else EmptyEntry(g.rooms, group)
  {
    match step
    case Connect(group', peer, order) => hide Sound; EmptyEntryConnect(limits, g, group', peer, order, group);
    case Handle(id, order) => hide Sound, Handled, EmptyEntry; EmptyEntryHandle(g, id, order, group);
    case Remove(id, order) =>
      hide ConnsAgree, RoomsAgree, Bounded, Removed, EmptyEntry;
      EmptyEntryRemove(g, id, order, group);
    case _ => hide Sound, Protected;
  }

  lemma EmptyEntryConnect(limits: Limits, g: State, group': string, peer: ClientInfo, order: seq<Uuid>, group: string)
    requires Enabled(g, Connect(group', peer, order))
    ensures EmptyEntry(Connected(limits, g, group', peer, order).rooms, group) <==>
            if group' == group
            then Room(g.rooms, group) == map[] && !Registered(limits, g.rooms, g.counts, group, peer).0
            else EmptyEntry(g.rooms, group)
  {
    hide ToAll, Infos;
    assert peer.id in Room(g.rooms, group')[peer.id := peer.info];
  }

  lemma EmptyEntryHandle(g: State, id: Uuid, order: seq<Uuid>, group: string)
    requires Enabled(g, Handle(id, order))
    ensures EmptyEntry(Handled(g, id, order).rooms, group) <==> EmptyEntry(g.rooms, group)
  {
    hide Answering, IsOrder;
    var request, conn := g.conns[id].todo.value, g.conns[id];
    if request.Revise? && id in Room(g.rooms, conn.group) {
      assert id in g.rooms[conn.group] && id in g.rooms[conn.group][id := request.info];
    }
  }

  /** Whoever is removed was there, and the entry does not outlive the last one. */
  lemma EmptyEntryRemove(g: State, id: Uuid, order: seq<Uuid>, group: string)
    requires RoomsAgree(g) && Enabled(g, Remove(id, order))
    ensures EmptyEntry(Removed(g, id, order).rooms, group) <==> EmptyEntry(g.rooms, group)
  {
    hide IsOrder;
    assert id in Room(g.rooms, g.conns[id].group);
  }
}
