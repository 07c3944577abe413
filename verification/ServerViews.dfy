/** What every client can reconstruct of its room from the messages it is sent. */
module ServerViews {
  import opened Basics
  import opened Model
  import opened Registry
  import opened Server

  /** What a message says about the coming and going of one peer. */
  datatype Note = Known(info: ClientInfoWithoutId) | Dropped

  function Mentioned(peers: seq<ClientInfo>, x: Uuid): multiset<Note> {
    if peers == [] then multiset{}
    else (if peers[0].id == x then multiset{Known(peers[0].info)} else multiset{}) + Mentioned(peers[1..], x)
  }

  function Notes(msg: ServerMessage, x: Uuid): multiset<Note> {
    match msg
    case Hello(_, peers) => Mentioned(peers, x)
    case Join(peer) => if peer.id == x then multiset{Known(peer.info)} else multiset{}
    case Left(id) => if id == x then multiset{Dropped} else multiset{}
    case _ => multiset{}
  }

  function Heard(log: seq<ServerMessage>, x: Uuid): multiset<Note> {
    if log == [] then multiset{} else Heard(log[..|log| - 1], x) + Notes(log[|log| - 1], x)
  }

  /** The notes about `x` still on their way to `c` in one outbox. */
  function Pending(out: seq<Envelope>, c: Uuid, x: Uuid): multiset<Note> {
    if out == [] then multiset{}
    else (if out[0].to == c then Notes(out[0].msg, x) else multiset{}) + Pending(out[1..], c, x)
  }

  /** The contents of update messages about `x`, in order. */
  function Revisions(log: seq<ServerMessage>, x: Uuid): seq<ClientInfoWithoutId> {
    if log == [] then []
    else
      var last := log[|log| - 1];
      Revisions(log[..|log| - 1], x)
      + (if last.Update? && last.peer.id == x then [last.peer.info] else [])
  }

  function PendingRevisions(work: seq<Envelope>, c: Uuid, x: Uuid): seq<ClientInfoWithoutId> {
    if work == [] then []
    else
      (if work[0].to == c && work[0].msg.Update? && work[0].msg.peer.id == x then [work[0].msg.peer.info] else [])
      + PendingRevisions(work[1..], c, x)
  }

  function Outbox(g: State, z: Uuid): seq<Envelope> {
    if z in g.conns then g.conns[z].out else []
  }

  function Work(g: State, z: Uuid): seq<Envelope> {
    if z in g.conns then g.conns[z].work else []
  }

  function Log(g: State, c: Uuid): seq<ServerMessage> {
    if c in g.logs then g.logs[c] else []
  }

  /** Everything `c` was told or is about to be told about the coming and going of `x`: only its own greeting and the
      outbox of `x` can still hold any of it. */
  function Told(g: State, c: Uuid, x: Uuid): multiset<Note> {
    Heard(Log(g, c), x) + Pending(Outbox(g, c), c, x) + Pending(Outbox(g, x), c, x)
  }

  /** The updates `c` was sent or is about to be sent by the worker of `x`. */
  function Updates(g: State, c: Uuid, x: Uuid): seq<ClientInfoWithoutId> {
    Revisions(Log(g, c), x) + PendingRevisions(Work(g, x), c, x)
  }

  /** What `c` knows of `x` in the end: the last update, or else what it was told first. */
  function Latest(known: ClientInfoWithoutId, revisions: seq<ClientInfoWithoutId>): ClientInfoWithoutId {
    if revisions == [] then known else revisions[|revisions| - 1]
  }

  /** The view `c` has of `x`. */
  ghost predicate PairAgrees(g: State, c: Uuid, x: Uuid) {
    if x !in g.conns || !Together(g, c, x) then Told(g, c, x) == multiset{} && Updates(g, c, x) == []
    else if Present(g, x) then
      exists known :: Told(g, c, x) == multiset{Known(known)} && InfoAgrees(g, c, x, known)
    else
      || (Told(g, c, x) == multiset{} && Updates(g, c, x) == [])
      || exists known :: Told(g, c, x) == multiset{Known(known), Dropped}
  }

  ghost predicate InfoAgrees(g: State, c: Uuid, x: Uuid, known: ClientInfoWithoutId)
    requires x in g.conns
  {
    var room := Room(g.rooms, g.conns[x].group);
    !g.conns[x].phase.Closing? ==> x in room && room[x] == Latest(known, Updates(g, c, x))
  }

  ghost predicate ViewsAgree(g: State) {
    forall c, x :: Present(g, c) && c != x ==> PairAgrees(g, c, x)
  }

  // ---- Sums over logs and outboxes --------------------------------------------------------------

  lemma HeardSnoc(log: seq<ServerMessage>, msg: ServerMessage, x: Uuid)
    ensures Heard(log + [msg], x) == Heard(log, x) + Notes(msg, x)
    ensures Revisions(log + [msg], x) ==
            Revisions(log, x) + (if msg.Update? && msg.peer.id == x then [msg.peer.info] else [])
  {
    assert (log + [msg])[..|log|] == log;
  }

  lemma {:induction false} PendingAppend(a: seq<Envelope>, b: seq<Envelope>, c: Uuid, x: Uuid)
    ensures Pending(a + b, c, x) == Pending(a, c, x) + Pending(b, c, x)
  {
    hide Notes;
    if a == [] {
      assert a + b == b;
    } else {
      PendingAppend(a[1..], b, c, x);
      assert (a + b)[0] == a[0] && (a + b)[1..] == a[1..] + b;
      var head := if a[0].to == c then Notes(a[0].msg, x) else multiset{};
      assert head + Pending(a[1..], c, x) + Pending(b, c, x) == head + (Pending(a[1..], c, x) + Pending(b, c, x));
    }
  }

  /** An outbox that holds nothing about `x` for `c`. */
  lemma {:induction false} NothingPending(out: seq<Envelope>, c: Uuid, x: Uuid)
    requires forall e :: e in out && e.to == c ==> Notes(e.msg, x) == multiset{} && !(e.msg.Update? && e.msg.peer.id == x)
    ensures Pending(out, c, x) == multiset{} && PendingRevisions(out, c, x) == []
  {
    if out != [] {
      assert out[0] in out;
      NothingPending(out[1..], c, x);
    }
  }

  /** A message to everyone is for each of them once. */
  lemma {:induction false} PendingToAll(order: seq<Uuid>, msg: ServerMessage, c: Uuid, x: Uuid)
    requires forall i, j :: 0 <= i < j < |order| ==> order[i] != order[j]
    ensures Pending(ToAll(order, msg), c, x) == if c in order then Notes(msg, x) else multiset{}
    ensures PendingRevisions(ToAll(order, msg), c, x)
         == if c in order && msg.Update? && msg.peer.id == x then [msg.peer.info] else []
  {
    if order != [] {
      PendingToAll(order[1..], msg, c, x);
      assert order == [order[0]] + order[1..];
      assert ToAll(order, msg)[1..] == ToAll(order[1..], msg);
    }
  }

  lemma {:induction false} MentionedInfos(room: map<Uuid, ClientInfoWithoutId>, order: seq<Uuid>, x: Uuid)
    requires forall y :: y in order ==> y in room
    requires forall i, j :: 0 <= i < j < |order| ==> order[i] != order[j]
    ensures Mentioned(Infos(room, order), x) == if x in order then multiset{Known(room[x])} else multiset{}
  {
    if order != [] {
      MentionedInfos(room, order[1..], x);
      assert order == [order[0]] + order[1..];
      assert Infos(room, order)[1..] == Infos(room, order[1..]);
    }
  }

  // ---- Every step keeps the views ---------------------------------------------------------------

  /** Both peers stay what they were to each other, and nothing is said about `x` to `c`. */
  ghost predicate Undisturbed(g: State, g': State, c: Uuid, x: Uuid) {
    && Told(g', c, x) == Told(g, c, x)
    && (x in g'.conns <==> x in g.conns) && (Together(g', c, x) <==> Together(g, c, x))
    && (Present(g', x) <==> Present(g, x))
    && (if Together(g, c, x) && Present(g, x) then
          var (room, room') := (Room(g.rooms, g.conns[x].group), Room(g'.rooms, g'.conns[x].group));
          || g'.conns[x].phase.Closing?
          || (&& !g.conns[x].phase.Closing? && Updates(g', c, x) == Updates(g, c, x)
              && (x in room ==> x in room' && room'[x] == room[x]))
        else
          Updates(g, c, x) == [] ==> Updates(g', c, x) == [])
  }

  lemma UndisturbedAgrees(g: State, g': State, c: Uuid, x: Uuid)
    requires PairAgrees(g, c, x) && Undisturbed(g, g', c, x)
    ensures PairAgrees(g', c, x)
  {
    hide Told, Updates;
    if Together(g, c, x) && Present(g, x) {
      var known :| Told(g, c, x) == multiset{Known(known)} && InfoAgrees(g, c, x, known);
      assert InfoAgrees(g', c, x, known);
    }
  }

  /** Nothing is under way to someone who is not there. */
  lemma NobodyPending(g: State, z: Uuid, c: Uuid, x: Uuid)
    requires ConnsAgree(g) && z in g.conns && !Together(g, z, c)
    ensures Pending(g.conns[z].out, c, x) == multiset{} && PendingRevisions(g.conns[z].work, c, x) == []
  {
    assert forall e :: e in g.conns[z].out ==> Proper(g, z, e);
    assert forall e :: e in g.conns[z].work ==> Fitting(g, z, e);
    NothingPending(g.conns[z].out, c, x);
    NothingPending(g.conns[z].work, c, x);
  }

  /** A step that leaves a connection, its log and what the registry holds of it as they are. */
  ghost predicate Untouched(g: State, g': State, z: Uuid) {
    && Outbox(g', z) == Outbox(g, z) && Work(g', z) == Work(g, z) && Log(g', z) == Log(g, z)
    && (z in g'.conns <==> z in g.conns) && (z in g.conns ==> g'.conns[z] == g.conns[z])
    && (z in g.conns ==>
          var (room, room') := (Room(g.rooms, g.conns[z].group), Room(g'.rooms, g.conns[z].group));
          z in room ==> z in room' && room'[z] == room[z])
  }

  lemma UntouchedPair(g: State, g': State, c: Uuid, x: Uuid)
    requires Untouched(g, g', c) && Untouched(g, g', x)
    ensures Undisturbed(g, g', c, x)
  {
  }

  // A newcomer.

  /** The newcomer is told once about everyone in the room. */
  lemma NewcomerLearns(limits: Limits, g: State, group: string, peer: ClientInfo, order: seq<Uuid>, x: Uuid)
    requires Sound(limits, g) && Enabled(g, Connect(group, peer, order)) && x != peer.id
    requires Registered(limits, g.rooms, g.counts, group, peer).0
    ensures PairAgrees(Connected(limits, g, group, peer, order), peer.id, x)
  {
    hide Registered, Notes;
    var g', n, room := Connected(limits, g, group, peer, order), peer.id, Room(g.rooms, group);
    var hello := Hello(peer, Infos(room, order));
    AdmittedIff(limits, g.rooms, g.counts, group, peer);
    PendingToAll(order, Join(peer), n, x);
    PendingAppend(ToAll(order, Join(peer)), [Envelope(n, hello)], n, x);
    HelloTells(hello, n, x);
    MentionedInfos(room, order, x);
    if x in g.conns {
      NobodyPending(g, x, n, x);
    }
    var told := if x in room then multiset{Known(room[x])} else multiset{};
    assert Told(g', n, x) == told;
    assert Updates(g', n, x) == [];
    NewcomerSees(limits, g, group, peer, order, x);
    if x in room {
      assert InfoAgrees(g', n, x, room[x]);
    }
  }

  lemma HelloTells(hello: ServerMessage, n: Uuid, x: Uuid)
    requires hello.Hello?
    ensures Pending([Envelope(n, hello)], n, x) == Mentioned(hello.peers, x)
  {
    assert [Envelope(n, hello)][1..] == [];
  }

  lemma NewcomerSees(limits: Limits, g: State, group: string, peer: ClientInfo, order: seq<Uuid>, x: Uuid)
    requires Sound(limits, g) && Enabled(g, Connect(group, peer, order)) && x != peer.id
    requires Registered(limits, g.rooms, g.counts, group, peer).0
    ensures var g' := Connected(limits, g, group, peer, order);
            && (x in Room(g.rooms, group) <==> Present(g', x) && Together(g', peer.id, x))
            && (x in Room(g.rooms, group) ==>
                  x in Room(g'.rooms, group) && Room(g'.rooms, group)[x] == Room(g.rooms, group)[x])
  {
    hide Registered, ConnsAgree, Bounded;
    AdmittedIff(limits, g.rooms, g.counts, group, peer);
  }

  /** Everyone in the room is told once about the newcomer. */
  lemma NewcomerIsAnnounced(limits: Limits, g: State, group: string, peer: ClientInfo, order: seq<Uuid>, c: Uuid)
    requires Sound(limits, g) && Enabled(g, Connect(group, peer, order)) && c != peer.id
    requires Registered(limits, g.rooms, g.counts, group, peer).0
    requires Present(g, c) && PairAgrees(g, c, peer.id)
    ensures PairAgrees(Connected(limits, g, group, peer, order), c, peer.id)
  {
    hide Registered, Connected, Notes, Pending, PendingRevisions, Heard, Revisions, ConnsAgree, Bounded;
    var g', n := Connected(limits, g, group, peer, order), peer.id;
    OthersAtConnect(limits, g, group, peer, order, c);
    NewcomerOutbox(limits, g, group, peer, order, c);
    NothingInNothing(c, n);
    Empties(Heard(Log(g, c), n), Pending(Outbox(g, c), c, n), Pending(Outbox(g, n), c, n));
    assert c in order <==> Together(g', c, n);
    assert Told(g', c, n) == if c in order then multiset{Known(peer.info)} else multiset{};
    assert Updates(g', c, n) == [];
    if c in order {
      assert InfoAgrees(g', c, n, peer.info);
    }
  }

  /** What the newcomer's outbox holds for someone else, and what the registry holds of the newcomer. */
  lemma NewcomerOutbox(limits: Limits, g: State, group: string, peer: ClientInfo, order: seq<Uuid>, c: Uuid)
    requires Sound(limits, g) && Enabled(g, Connect(group, peer, order)) && c != peer.id
    requires Registered(limits, g.rooms, g.counts, group, peer).0
    ensures var g', n := Connected(limits, g, group, peer, order), peer.id;
            && Present(g', n) && g'.conns[n].group == group
            && Pending(Outbox(g', n), c, n) == (if c in order then multiset{Known(peer.info)} else multiset{})
            && Work(g', n) == []
            && n in Room(g'.rooms, group) && Room(g'.rooms, group)[n] == peer.info
  {
    hide Registered, Pending, PendingRevisions, Sound;
    AdmittedIff(limits, g.rooms, g.counts, group, peer);
    JoinTells(order, peer, Envelope(peer.id, Hello(peer, Infos(Room(g.rooms, group), order))), c);
  }

  lemma Empties<T>(a: multiset<T>, b: multiset<T>, c: multiset<T>)
    ensures a + b + c == multiset{} ==> a == multiset{} && b == multiset{} && c == multiset{}
  {
    if a + b + c == multiset{} {
      forall t: T ensures a[t] == 0 && b[t] == 0 && c[t] == 0 {
        assert (a + b + c)[t] == 0;
      }
    }
  }

  lemma JoinTells(order: seq<Uuid>, peer: ClientInfo, hello: Envelope, c: Uuid)
    requires hello.to != c
    requires forall i, j :: 0 <= i < j < |order| ==> order[i] != order[j]
    ensures Pending(ToAll(order, Join(peer)) + [hello], c, peer.id)
         == if c in order then multiset{Known(peer.info)} else multiset{}
  {
    PendingToAll(order, Join(peer), c, peer.id);
    PendingAppend(ToAll(order, Join(peer)), [hello], c, peer.id);
    assert [hello][1..] == [];
  }

  lemma ConnectViews(limits: Limits, g: State, group: string, peer: ClientInfo, order: seq<Uuid>)
    requires Sound(limits, g) && ViewsAgree(g) && Enabled(g, Connect(group, peer, order))
    ensures ViewsAgree(Connected(limits, g, group, peer, order))
  {
    hide Registered, PairAgrees, Sound;
    var g' := Connected(limits, g, group, peer, order);
    forall c, x | Present(g', c) && c != x ensures PairAgrees(g', c, x) {
      var admitted := Registered(limits, g.rooms, g.counts, group, peer).0;
      if admitted && c == peer.id {
        NewcomerLearns(limits, g, group, peer, order, x);
      } else if admitted && x == peer.id {
        NewcomerIsAnnounced(limits, g, group, peer, order, c);
      } else {
        OthersAtConnect(limits, g, group, peer, order, c);
        OthersAtConnect(limits, g, group, peer, order, x);
        UntouchedPair(g, g', c, x);
        UndisturbedAgrees(g, g', c, x);
      }
    }
  }

  lemma OthersAtConnect(limits: Limits, g: State, group: string, peer: ClientInfo, order: seq<Uuid>, z: Uuid)
    requires Sound(limits, g) && Enabled(g, Connect(group, peer, order))
    requires Registered(limits, g.rooms, g.counts, group, peer).0 ==> z != peer.id
    ensures Untouched(g, Connected(limits, g, group, peer, order), z)
  {
    hide Registered, Sound;
    AdmittedIff(limits, g.rooms, g.counts, group, peer);
  }

  // What is sent.

  /** How the outbox of `id` and the log of `c` change when the head of that outbox is delivered. */
  lemma DeliveryShape(g: State, id: Uuid, c: Uuid, x: Uuid)
    requires ConnsAgree(g) && id in g.conns && g.conns[id].out != [] && c in g.conns
    ensures var (e, tail, log) := (g.conns[id].out[0], g.conns[id].out[1..], Log(g, c));
            var g' := Next(Limits(0, 0), g, Deliver(id));
            && Outbox(g', id) == tail && (forall z :: z != id ==> Outbox(g', z) == Outbox(g, z))
            && (forall z :: Work(g', z) == Work(g, z))
            && Heard(Log(g', c), x) == Heard(log, x) + (if e.to == c then Notes(e.msg, x) else multiset{})
            && Revisions(Log(g', c), x) == Revisions(log, x)
            && Pending(Outbox(g, id), c, x) == (if e.to == c then Notes(e.msg, x) else multiset{}) + Pending(tail, c, x)
            && Proper(g, id, e)
  {
    hide Notes;
    var e, log := g.conns[id].out[0], Log(g, c);
    assert e in g.conns[id].out;
    HeardSnoc(log, e.msg, x);
    assert log == Log(g, c);
    assert Revisions(log, x) + [] == Revisions(log, x);
  }

  /** What is delivered is neither lost nor said twice. Only the newcomer's own greeting and the outbox of `x` have
      anything to say about `x`. */
  lemma DeliverTold(g: State, id: Uuid, c: Uuid, x: Uuid)
    requires ConnsAgree(g) && id in g.conns && g.conns[id].out != [] && c in g.conns && c != x
    ensures var g' := Next(Limits(0, 0), g, Deliver(id));
            Told(g', c, x) == Told(g, c, x) && Updates(g', c, x) == Updates(g, c, x)
  {
    var e, tail := g.conns[id].out[0], g.conns[id].out[1..];
    DeliveryShape(g, id, c, x);
    NoteOrigin(g, id, e, c, x);
    hide Heard, Revisions, Pending, PendingRevisions, Notes, ConnsAgree, Next, Proper, Outbox, Work, Log;
    var g' := Next(Limits(0, 0), g, Deliver(id));
    var note := if e.to == c then Notes(e.msg, x) else multiset{};
    if id == x {
      Moved(Heard(Log(g, c), x), note, Pending(Outbox(g, c), c, x), Pending(tail, c, x));
    } else if id == c {
      Moved(Heard(Log(g, c), x), note, Pending(Outbox(g, x), c, x), Pending(tail, c, x));
    } else {
      assert note == multiset{};
    }
  }

  lemma Moved<T>(heard: multiset<T>, note: multiset<T>, other: multiset<T>, rest: multiset<T>)
    ensures heard + note + other + rest == heard + other + (note + rest)
    ensures heard + note + rest + other == heard + (note + rest) + other
  {
  }

  /** Who can send a note about `x` to `c`. */
  lemma NoteOrigin(g: State, id: Uuid, e: Envelope, c: Uuid, x: Uuid)
    requires id in g.conns && Proper(g, id, e) && c != x
    ensures e.to == c && id != x && id != c ==> Notes(e.msg, x) == multiset{}
  {
  }

  lemma DeliverViews(limits: Limits, g: State, id: Uuid)
    requires Sound(limits, g) && ViewsAgree(g) && Enabled(g, Deliver(id))
    ensures ViewsAgree(Next(limits, g, Deliver(id)))
  {
    hide PairAgrees, Told, Updates, RoomsAgree, Bounded;
    var g' := Next(limits, g, Deliver(id));
    forall c, x | Present(g', c) && c != x ensures PairAgrees(g', c, x) {
      DeliverTold(g, id, c, x);
      UndisturbedAgrees(g, g', c, x);
    }
  }

  function NewRevision(e: Envelope, c: Uuid, x: Uuid): seq<ClientInfoWithoutId> {
    if e.to == c && e.msg.Update? && e.msg.peer.id == x then [e.msg.peer.info] else []
  }

  /** The same for what the worker of `id` sends. */
  lemma SendShape(g: State, id: Uuid, c: Uuid, x: Uuid)
    requires ConnsAgree(g) && id in g.conns && g.conns[id].work != [] && c in g.conns
    ensures var (e, tail, log) := (g.conns[id].work[0], g.conns[id].work[1..], Log(g, c));
            var g' := Next(Limits(0, 0), g, Send(id));
            && Work(g', id) == tail && (forall z :: z != id ==> Work(g', z) == Work(g, z))
            && (forall z :: Outbox(g', z) == Outbox(g, z))
            && Heard(Log(g', c), x) == Heard(log, x)
            && Revisions(Log(g', c), x) == Revisions(log, x) + NewRevision(e, c, x)
            && PendingRevisions(Work(g, id), c, x) == NewRevision(e, c, x) + PendingRevisions(tail, c, x)
            && Fitting(g, id, e)
  {
    var e, log := g.conns[id].work[0], Log(g, c);
    assert e in g.conns[id].work;
    HeardSnoc(log, e.msg, x);
    assert log == Log(g, c);
    assert Revisions(log, x) + [] == Revisions(log, x);
  }

  /** Updates keep their order on the way. */
  lemma SendTold(g: State, id: Uuid, c: Uuid, x: Uuid)
    requires ConnsAgree(g) && id in g.conns && g.conns[id].work != [] && c in g.conns && c != x
    ensures var g' := Next(Limits(0, 0), g, Send(id));
            Told(g', c, x) == Told(g, c, x) && Updates(g', c, x) == Updates(g, c, x)
  {
    var e, tail := g.conns[id].work[0], g.conns[id].work[1..];
    SendShape(g, id, c, x);
    var revision := NewRevision(e, c, x);
    assert id != x ==> revision == [];
    hide Heard, Revisions, Pending, PendingRevisions, ConnsAgree, Next, Fitting, Outbox, Work, Log, NewRevision;
    if id == x {
      Regrouped(Revisions(Log(g, c), x), revision, PendingRevisions(tail, c, x));
    } else {
      assert Revisions(Log(g, c), x) + [] == Revisions(Log(g, c), x);
    }
  }

  lemma Regrouped<T>(a: seq<T>, b: seq<T>, c: seq<T>)
    ensures a + b + c == a + (b + c)
  {
  }

  lemma SendViews(limits: Limits, g: State, id: Uuid)
    requires Sound(limits, g) && ViewsAgree(g) && Enabled(g, Send(id))
    ensures ViewsAgree(Next(limits, g, Send(id)))
  {
    hide PairAgrees, Told, Updates, RoomsAgree, Bounded;
    var g' := Next(limits, g, Send(id));
    forall c, x | Present(g', c) && c != x ensures PairAgrees(g', c, x) {
      SendTold(g, id, c, x);
      UndisturbedAgrees(g, g', c, x);
    }
  }

  // A request, and its answer.

  lemma AskViews(limits: Limits, g: State, id: Uuid, request: Request)
    requires Sound(limits, g) && ViewsAgree(g) && Enabled(g, Ask(id, request))
    ensures ViewsAgree(Asked(limits, g, id, request))
  {
    hide PairAgrees, Told, Updates, RoomsAgree, Bounded, Protected;
    var g' := Asked(limits, g, id, request);
    forall c, x | Present(g', c) && c != x ensures PairAgrees(g', c, x) {
      AskTold(limits, g, id, request, c, x);
      UndisturbedAgrees(g, g', c, x);
    }
  }

  lemma AskTold(limits: Limits, g: State, id: Uuid, request: Request, c: Uuid, x: Uuid)
    requires Enabled(g, Ask(id, request))
    ensures var g' := Asked(limits, g, id, request);
            Told(g', c, x) == Told(g, c, x) && Updates(g', c, x) == Updates(g, c, x)
  {
    hide Heard, Revisions, Protected;
    var error := Envelope(id, Error(TOO_MANY_REQUESTS));
    assert [error][1..] == [];
    var g' := Asked(limits, g, id, request);
    forall z ensures Outbox(g', z) == Outbox(g, z)
                  && PendingRevisions(Work(g', z), c, x) == PendingRevisions(Work(g, z), c, x)
    {
      assert Work(g', z) == Work(g, z) || (Work(g, z) == [] && Work(g', z) == [error]);
    }
  }

  /** What the answer to a request adds for `c` about `x`: an update about its origin, for everyone else in its room. */
  lemma AnswerTells(g: State, id: Uuid, order: seq<Uuid>, c: Uuid, x: Uuid)
    requires Enabled(g, Handle(id, order))
    ensures var (request, room) := (g.conns[id].todo.value, Room(g.rooms, g.conns[id].group));
            PendingRevisions(Answering(g, id, request, order), c, x)
            == if request.Revise? && x == id && c != id && id in room && c in room then [request.info] else []
  {
    hide PendingRevisions;
    var request, room := g.conns[id].todo.value, Room(g.rooms, g.conns[id].group);
    if request.Revise? && id in room {
      PendingToAll(order, ServerMessage.Update(ClientInfo(id, request.info)), c, x);
      assert c in order <==> c in room && c != id;
    } else {
      NothingPending(Answering(g, id, request, order), c, x);
    }
  }

  lemma InRoomIff(g: State, x: Uuid, y: Uuid)
    requires RoomsAgree(g) && x in g.conns
    ensures y in Room(g.rooms, g.conns[x].group) <==> Present(g, y) && Together(g, y, x)
  {
    var group := g.conns[x].group;
    assert y in Room(g.rooms, group) <==> Present(g, y) && g.conns[y].group == group;
  }

  lemma HandleShape(g: State, id: Uuid, order: seq<Uuid>, c: Uuid, x: Uuid)
    requires RoomsAgree(g) && ConnsAgree(g) && Enabled(g, Handle(id, order)) && c != x
    ensures var (g', request) := (Handled(g, id, order), g.conns[id].todo.value);
            && Told(g', c, x) == Told(g, c, x)
            && Updates(g', c, x) == Updates(g, c, x)
                 + (if request.Revise? && x == id && Present(g, id) && Present(g, c) && Together(g, c, id)
                    then [request.info] else [])
  {
    hide Heard, Revisions, Pending, PendingRevisions, RoomsAgree, Answering;
    NothingInNothing(c, x);
    AnswerTells(g, id, order, c, x);
    InRoomIff(g, id, id);
    InRoomIff(g, id, c);
    assert Work(g, id) == [];
    var g' := Handled(g, id, order);
    assert Log(g', c) == Log(g, c) && forall z :: Outbox(g', z) == Outbox(g, z) && (z != id ==> Work(g', z) == Work(g, z));
    var revisions := Updates(g, c, x);
    assert revisions + [] == revisions;
    assert Revisions(Log(g, c), x) + [] == Revisions(Log(g, c), x);
  }

  /** What the registry then holds of the origin is its last update. */
  lemma HandleAgrees(g: State, g': State, c: Uuid, x: Uuid, revision: Option<ClientInfoWithoutId>)
    requires PairAgrees(g, c, x) && Told(g', c, x) == Told(g, c, x)
    requires Updates(g', c, x) == Updates(g, c, x) + (if revision.Some? then [revision.value] else [])
    requires (x in g'.conns <==> x in g.conns) && (Together(g', c, x) <==> Together(g, c, x))
    requires x in g.conns ==> g'.conns[x].group == g.conns[x].group && g'.conns[x].phase == g.conns[x].phase
    requires revision.Some? ==> Present(g, x) && Together(g, c, x)
    requires Present(g, x) && Together(g, c, x) ==>
               var (room, room') := (Room(g.rooms, g.conns[x].group), Room(g'.rooms, g.conns[x].group));
               x in room && x in room' && room'[x] == if revision.Some? then revision.value else room[x]
    ensures PairAgrees(g', c, x)
  {
    hide Told, Updates, Room;
    var revisions := Updates(g, c, x);
    assert revisions + [] == revisions;
    if Present(g, x) && Together(g, c, x) {
      var known :| Told(g, c, x) == multiset{Known(known)} && InfoAgrees(g, c, x, known);
      assert InfoAgrees(g', c, x, known);
    }
  }

  lemma HandleStays(g: State, id: Uuid, order: seq<Uuid>, c: Uuid, x: Uuid)
    requires id in g.conns && g.conns[id].todo.Some?
    ensures var g' := Handled(g, id, order);
            && (x in g'.conns <==> x in g.conns) && (Together(g', c, x) <==> Together(g, c, x))
            && (x in g.conns ==> g'.conns[x].group == g.conns[x].group && g'.conns[x].phase == g.conns[x].phase)
  {
    hide Answering;
  }

  /** What the registry holds of `x` afterwards. */
  lemma HandleKeepsInfo(g: State, id: Uuid, order: seq<Uuid>, x: Uuid)
    requires RoomsAgree(g) && id in g.conns && g.conns[id].todo.Some? && Present(g, x)
    ensures var (room, room') := (Room(g.rooms, g.conns[x].group), Room(Handled(g, id, order).rooms, g.conns[x].group));
            var request := g.conns[id].todo.value;
            && x in room && x in room'
            && room'[x] == if request.Revise? && x == id then request.info else room[x]
  {
  }

  lemma NothingInNothing(c: Uuid, x: Uuid)
    ensures Pending([], c, x) == multiset{} && PendingRevisions([], c, x) == []
  {
  }

  // The end of a connection.

  lemma CloseViews(limits: Limits, g: State, id: Uuid)
    requires Sound(limits, g) && ViewsAgree(g) && Enabled(g, Close(id))
    ensures ViewsAgree(Next(limits, g, Close(id)))
  {
    hide PairAgrees, Sound, Heard, Revisions, Pending, PendingRevisions;
    var g' := Next(limits, g, Close(id));
    forall c, x | Present(g', c) && c != x ensures PairAgrees(g', c, x) {
      assert Log(g', c) == Log(g, c) && forall z :: Outbox(g', z) == Outbox(g, z) && Work(g', z) == Work(g, z);
      UndisturbedAgrees(g, g', c, x);
    }
  }

  /** An abort takes updates with it, but only those of a peer about to go or gone. */
  lemma AbortViews(limits: Limits, g: State, id: Uuid)
    requires ViewsAgree(g) && Enabled(g, Abort(id))
    ensures ViewsAgree(Next(limits, g, Abort(id)))
  {
    hide PairAgrees, Heard, Revisions, Pending, PendingRevisions;
    var g' := Next(limits, g, Abort(id));
    forall c, x | Present(g', c) && c != x ensures PairAgrees(g', c, x) {
      NothingInNothing(c, x);
      assert Log(g', c) == Log(g, c) && Outbox(g', c) == Outbox(g, c) && Outbox(g', x) == Outbox(g, x);
      UndisturbedAgrees(g, g', c, x);
    }
  }

  lemma RemoveViews(limits: Limits, g: State, id: Uuid, order: seq<Uuid>)
    requires Sound(limits, g) && ViewsAgree(g) && Enabled(g, Remove(id, order))
    ensures ViewsAgree(Removed(g, id, order))
  {
    hide PairAgrees, Told, Updates, ConnsAgree, Bounded;
    var g' := Removed(g, id, order);
    forall c, x | Present(g', c) && c != x ensures PairAgrees(g', c, x) {
      if x == id {
        RemovalShape(limits, g, id, order, c);
        RemovalStays(g, id, order, c);
        RemovalAgrees(g, g', c, id);
      } else {
        OthersAtRemoval(limits, g, id, order, c);
        OthersAtRemoval(limits, g, id, order, x);
        UntouchedPair(g, g', c, x);
        UndisturbedAgrees(g, g', c, x);
      }
    }
  }

  lemma OthersAtRemoval(limits: Limits, g: State, id: Uuid, order: seq<Uuid>, z: Uuid)
    requires id in g.conns && z != id
    ensures Untouched(g, Removed(g, id, order), z)
  {
    hide Dismissed;
    if z in g.conns {
      DismissedRoom(g.rooms, g.conns[id].group, id, g.conns[z].group);
    }
  }

  lemma RemovalShape(limits: Limits, g: State, id: Uuid, order: seq<Uuid>, c: Uuid)
    requires Sound(limits, g) && Enabled(g, Remove(id, order)) && Present(g, c) && c != id
    ensures var g' := Removed(g, id, order);
            && Told(g', c, id) == Told(g, c, id) + (if Together(g, c, id) then multiset{Dropped} else multiset{})
            && Updates(g', c, id) == Updates(g, c, id)
  {
    hide Heard, Revisions, Pending, PendingRevisions, Bounded, Notes;
    var g' := Removed(g, id, order);
    NothingInNothing(c, id);
    PendingToAll(order, Left(id), c, id);
    LeftTells(id);
    assert Outbox(g, id) == [] && Outbox(g', id) == ToAll(order, Left(id));
    assert Log(g', c) == Log(g, c) && Outbox(g', c) == Outbox(g, c) && Work(g', id) == Work(g, id);
    assert c in order <==> Together(g, c, id);
  }

  /** Everyone left in the room is told once that the peer is gone. */
  lemma RemovalAgrees(g: State, g': State, c: Uuid, x: Uuid)
    requires PairAgrees(g, c, x) && Present(g, x) && x in g'.conns && !Present(g', x)
    requires Together(g', c, x) <==> Together(g, c, x)
    requires Told(g', c, x) == Told(g, c, x) + (if Together(g, c, x) then multiset{Dropped} else multiset{})
    requires Updates(g', c, x) == Updates(g, c, x)
    ensures PairAgrees(g', c, x)
  {
    hide Told, Updates, InfoAgrees;
    if Together(g, c, x) {
      var known :| Told(g, c, x) == multiset{Known(known)};
      KnownThenDropped(known);
      assert Told(g', c, x) == multiset{Known(known), Dropped};
    }
  }

  lemma RemovalStays(g: State, id: Uuid, order: seq<Uuid>, c: Uuid)
    requires id in g.conns && c != id
    ensures !Present(Removed(g, id, order), id) && id in Removed(g, id, order).conns
    ensures Together(Removed(g, id, order), c, id) <==> Together(g, c, id)
  {
  }

  lemma KnownThenDropped(known: ClientInfoWithoutId)
    ensures multiset{Known(known)} + multiset{Dropped} == multiset{Known(known), Dropped}
  {
  }

  lemma LeftTells(id: Uuid)
    ensures Notes(Left(id), id) == multiset{Dropped}
  {
  }

  // ---- Every run --------------------------------------------------------------------------------

  lemma NextViews(limits: Limits, g: State, step: Step)
    requires Sound(limits, g) && ViewsAgree(g) && Enabled(g, step)
    ensures ViewsAgree(Next(limits, g, step))
  {
    hide ViewsAgree, Sound;
    match step
    case Connect(group, peer, order) => ConnectViews(limits, g, group, peer, order);
    case Deliver(id) => DeliverViews(limits, g, id);
    case Send(id) => SendViews(limits, g, id);
    case Ask(id, request) => AskViews(limits, g, id, request);
    case Handle(id, order) => HandleViews(limits, g, id, order);
    case Close(id) => CloseViews(limits, g, id);
    case Abort(id) => AbortViews(limits, g, id);
    case Remove(id, order) => RemoveViews(limits, g, id, order);
    case Clear => ClearViews(g);
  }

  lemma HandleViews(limits: Limits, g: State, id: Uuid, order: seq<Uuid>)
    requires Sound(limits, g) && ViewsAgree(g) && Enabled(g, Handle(id, order))
    ensures ViewsAgree(Handled(g, id, order))
  {
    hide PairAgrees, RoomsAgree, ConnsAgree, Bounded, Told, Updates;
    var g', request := Handled(g, id, order), g.conns[id].todo.value;
    forall c, x | Present(g', c) && c != x ensures PairAgrees(g', c, x) {
      HandleStays(g, id, order, c, c);
      HandleStays(g, id, order, c, x);
      HandleShape(g, id, order, c, x);
      if Present(g, x) {
        HandleKeepsInfo(g, id, order, x);
      }
      var revised := request.Revise? && x == id && Present(g, id) && Together(g, c, id);
      HandleAgrees(g, g', c, x, if revised then Some(request.info) else None);
    }
  }

  lemma ClearViews(g: State)
    requires ViewsAgree(g)
    ensures ViewsAgree(g.(counts := map[]))
  {
    hide PairAgrees;
    var g' := g.(counts := map[]);
    forall c, x | Present(g', c) && c != x ensures PairAgrees(g', c, x) {
      UntouchedPair(g, g', c, x);
      UndisturbedAgrees(g, g', c, x);
    }
  }

  lemma {:induction false} RunViews(limits: Limits, steps: seq<Step>, g: State)
    requires Run(limits, steps) == Some(g)
    ensures ViewsAgree(g)
    decreases |steps|
  {
    hide Next, Enabled, Sound;
    if steps != [] {
      hide ViewsAgree;
      var n := |steps| - 1;
      var before := Run(limits, steps[..n]).value;
      RunSound(limits, steps[..n], before);
      RunViews(limits, steps[..n], before);
      NextViews(limits, before, steps[n]);
    }
  }
}
