/** The views of the clients, in terms of all messages addressed to them, and what becomes of a client that takes its
    messages in the order of arrival. */
module ServerClient {
  import opened Basics
  import opened Model
  import opened Registry
  import opened Server
  import opened ServerViews

  predicate Lists(peers: seq<ClientInfo>, x: Uuid) {
    exists i :: 0 <= i < |peers| && peers[i].id == x
  }

  /** A Hello or Join that makes `x` known. */
  predicate Announces(msg: ServerMessage, x: Uuid) {
    (msg.Hello? && Lists(msg.peers, x)) || (msg.Join? && msg.peer.id == x)
  }

  /** The connection of `z` or its worker is about to send `e`. */
  predicate Queued(g: State, z: Uuid, e: Envelope) {
    z in g.conns && (e in g.conns[z].out || e in g.conns[z].work)
  }

  /** `c` was sent such a message, or some connection whatsoever is about to send it one. */
  ghost predicate Announced(g: State, c: Uuid, x: Uuid) {
    || (exists i :: 0 <= i < |Log(g, c)| && Announces(Log(g, c)[i], x))
    || (exists z, e :: Queued(g, z, e) && e.to == c && Announces(e.msg, x))
  }

  ghost predicate Withdrawn(g: State, c: Uuid, x: Uuid) {
    || Left(x) in Log(g, c)
    || (exists z :: Queued(g, z, Envelope(c, Left(x))))
  }

  predicate Knows(notes: multiset<Note>) {
    exists note :: note in notes && note.Known?
  }

  lemma {:induction false} MentionsIff(peers: seq<ClientInfo>, x: Uuid)
    ensures Knows(Mentioned(peers, x)) <==> Lists(peers, x)
    ensures Dropped !in Mentioned(peers, x)
  {
    if peers != [] {
      MentionsIff(peers[1..], x);
      var tail := Mentioned(peers[1..], x);
      if peers[0].id == x {
        assert Known(peers[0].info) in Mentioned(peers, x);
      } else {
        assert Mentioned(peers, x) == tail;
        if Lists(peers, x) {
          var i :| 0 <= i < |peers| && peers[i].id == x;
          assert peers[1..][i - 1].id == x;
        }
        if Lists(peers[1..], x) {
          var i :| 0 <= i < |peers[1..]| && peers[1..][i].id == x;
          assert peers[i + 1].id == x;
        }
      }
    }
  }

  lemma NotesIff(msg: ServerMessage, x: Uuid)
    ensures Knows(Notes(msg, x)) <==> Announces(msg, x)
    ensures Dropped in Notes(msg, x) <==> msg == Left(x)
  {
    if msg.Hello? {
      MentionsIff(msg.peers, x);
    }
    if msg.Join? && msg.peer.id == x {
      assert Known(msg.peer.info) in Notes(msg, x);
    }
  }

  lemma KnowsSum(a: multiset<Note>, b: multiset<Note>)
    ensures Knows(a + b) <==> Knows(a) || Knows(b)
    ensures Dropped in a + b <==> Dropped in a || Dropped in b
  {
    if Knows(a) {
      var note :| note in a && note.Known?;
      assert note in a + b;
    }
    if Knows(b) {
      var note :| note in b && note.Known?;
      assert note in a + b;
    }
  }

  lemma {:induction false} HeardIff(log: seq<ServerMessage>, x: Uuid)
    ensures Knows(Heard(log, x)) <==> exists i :: 0 <= i < |log| && Announces(log[i], x)
    ensures Dropped in Heard(log, x) <==> Left(x) in log
    decreases |log|
  {
    hide Notes, Announces, Knows;
    if log == [] {
      NoneKnown();
    } else {
      var n := |log| - 1;
      HeardIff(log[..n], x);
      NotesIff(log[n], x);
      KnowsSum(Heard(log[..n], x), Notes(log[n], x));
      assert log == log[..n] + [log[n]];
    }
  }

  lemma NoneKnown()
    ensures !Knows(multiset{})
  {
  }

  lemma {:induction false} PendingIff(out: seq<Envelope>, c: Uuid, x: Uuid)
    ensures Knows(Pending(out, c, x)) <==> exists e :: e in out && e.to == c && Announces(e.msg, x)
    ensures Dropped in Pending(out, c, x) <==> Envelope(c, Left(x)) in out
    decreases |out|
  {
    hide Notes, Announces, Knows;
    NoneKnown();
    if out != [] {
      PendingIff(out[1..], c, x);
      NotesIff(out[0].msg, x);
      KnowsSum(if out[0].to == c then Notes(out[0].msg, x) else multiset{}, Pending(out[1..], c, x));
      assert out == [out[0]] + out[1..];
    }
  }

  /** The outboxes of third connections have nothing to say. */
  lemma ToldCoversAll(limits: Limits, g: State, c: Uuid, x: Uuid)
    requires ConnsAgree(g) && c in g.conns && c != x
    ensures Announced(g, c, x) <==> Knows(Told(g, c, x))
    ensures Withdrawn(g, c, x) <==> Dropped in Told(g, c, x)
  {
    hide Heard, Pending, Knows, ConnsAgree;
    HeardIff(Log(g, c), x);
    PendingIff(Outbox(g, c), c, x);
    PendingIff(Outbox(g, x), c, x);
    KnowsSum(Heard(Log(g, c), x), Pending(Outbox(g, c), c, x));
    KnowsSum(Heard(Log(g, c), x) + Pending(Outbox(g, c), c, x), Pending(Outbox(g, x), c, x));
    assert forall z, e :: e in Outbox(g, z) ==> Queued(g, z, e);
    forall z, e | Queued(g, z, e) && e.to == c && (Announces(e.msg, x) || e.msg == Left(x))
      ensures (z == c || z == x) && e in Outbox(g, z)
    {
      OnlyOwners(g, z, e, c, x);
    }
  }

  lemma OnlyOwners(g: State, z: Uuid, e: Envelope, c: Uuid, x: Uuid)
    requires ConnsAgree(g) && Queued(g, z, e) && e.to == c
    requires Announces(e.msg, x) || e.msg == Left(x)
    ensures (z == c || z == x) && e in g.conns[z].out
  {
    assert e in g.conns[z].work ==> Fitting(g, z, e);
    assert e in g.conns[z].out ==> Proper(g, z, e);
  }

  /** In every reachable state, whatever the interleaving: the peers announced to a client minus those withdrawn, sends
      still under way included, are exactly the others in its room. Each of them was announced once and never withdrawn,
      and what the client knows of one that is not about to go is what the registry holds of it. */
  lemma ClientViews(limits: Limits, steps: seq<Step>, g: State, c: Uuid, x: Uuid)
    requires Run(limits, steps) == Some(g) && Present(g, c) && c != x
    ensures var room := Room(g.rooms, g.conns[c].group);
            && (x in room <==> Announced(g, c, x) && !Withdrawn(g, c, x))
            && (x in room ==>
                  x in g.conns
                  && exists known :: Told(g, c, x) == multiset{Known(known)}
                                        && (!g.conns[x].phase.Closing? ==> room[x] == Latest(known, Updates(g, c, x))))
  {
    hide Run, ConnsAgree, Told, Updates, Knows, Announced, Withdrawn;
    RunSound(limits, steps, g);
    RunViews(limits, steps, g);
    ToldCoversAll(limits, g, c, x);
    assert PairAgrees(g, c, x);
    NoneKnown();
    var room := Room(g.rooms, g.conns[c].group);
    if x in room {
      assert Present(g, x) && Together(g, c, x);
      var known :| Told(g, c, x) == multiset{Known(known)} && InfoAgrees(g, c, x, known);
      OneKnown(known);
    } else if x in g.conns && Together(g, c, x) {
      assert !Present(g, x);
    }
  }

  lemma OneKnown(known: ClientInfoWithoutId)
    ensures Knows(multiset{Known(known)}) && Dropped !in multiset{Known(known)}
  {
    assert Known(known) in multiset{Known(known)};
  }

  // ---- In the order of arrival ------------------------------------------------------------------

  /** Whether a client that adds a peer on Hello, Join and Update and drops it on Left has `x` on its list. */
  predicate Listed(log: seq<ServerMessage>, x: Uuid)
    decreases |log|
  {
    if log == [] then false
    else
      var last := log[|log| - 1];
      if Announces(last, x) || Updating(last, x) then true
      else last != Left(x) && Listed(log[..|log| - 1], x)
  }

  predicate Updating(msg: ServerMessage, x: Uuid) {
    msg.Update? && msg.peer.id == x
  }

  /** The greeting that mentions `x`, or an update about `x`, arrived only after the message that `x` was gone. */
  predicate Overtaken(log: seq<ServerMessage>, x: Uuid) {
    exists i, j :: 0 <= i < j < |log| && log[i] == Left(x) && Late(log[j], x)
  }

  predicate Late(msg: ServerMessage, x: Uuid) {
    (msg.Hello? && Announces(msg, x)) || Updating(msg, x)
  }

  predicate Mentions(log: seq<ServerMessage>, x: Uuid) {
    exists i :: 0 <= i < |log| && (Announces(log[i], x) || Updating(log[i], x))
  }

  /** Before `x` is withdrawn the list has it as soon as anything is said about it; afterwards, only by a late message. */
  ghost predicate ListAgrees(log: seq<ServerMessage>, x: Uuid) {
    if Left(x) !in log then Listed(log, x) <==> Mentions(log, x)
    else Listed(log, x) <==> Overtaken(log, x)
  }

  lemma ListSnoc(log: seq<ServerMessage>, msg: ServerMessage, x: Uuid)
    requires ListAgrees(log, x)
    requires Left(x) in log ==> msg != Left(x) && !(msg.Join? && msg.peer.id == x)
    ensures ListAgrees(log + [msg], x)
  {
    hide Announces;
    var log' := log + [msg];
    assert log'[..|log|] == log && log'[|log|] == msg;
    assert forall i :: 0 <= i < |log| ==> log'[i] == log[i];
    NotesIff(msg, x);
    if Left(x) in log && Late(msg, x) {
      var i :| 0 <= i < |log| && log[i] == Left(x);
      assert log'[i] == Left(x) && Late(log'[|log|], x);
    }
    if Left(x) in log && Overtaken(log, x) {
      var i, j :| 0 <= i < j < |log| && log[i] == Left(x) && Late(log[j], x);
      assert log'[i] == Left(x) && Late(log'[j], x);
    }
  }

  /** A withdrawal in the log of someone present means that the peer is gone. */
  lemma WithdrawnIsGone(g: State, c: Uuid, x: Uuid)
    requires PairAgrees(g, c, x) && Left(x) in Log(g, c)
    ensures Together(g, c, x) && g.conns[x].phase.Gone? && Left(x) !in PendingMessages(g, x, c)
  {
    hide Pending, Heard;
    HeardIff(Log(g, c), x);
    PendingIff(Outbox(g, x), c, x);
    assert Dropped in Told(g, c, x);
    CountedTwice(Heard(Log(g, c), x), Pending(Outbox(g, c), c, x), Pending(Outbox(g, x), c, x));
  }

  lemma CountedTwice(a: multiset<Note>, b: multiset<Note>, c: multiset<Note>)
    ensures Dropped in a && Dropped in c ==> (a + b + c)[Dropped] >= 2
  {
  }

  function PendingMessages(g: State, z: Uuid, c: Uuid): set<ServerMessage> {
    set e | e in Outbox(g, z) && e.to == c :: e.msg
  }

  lemma DeliverLists(limits: Limits, g: State, id: Uuid, c: Uuid, x: Uuid)
    requires ConnsAgree(g) && Enabled(g, Deliver(id)) && Present(g, c) && c != x && PairAgrees(g, c, x)
    requires ListAgrees(Log(g, c), x)
    ensures ListAgrees(Log(Next(limits, g, Deliver(id)), c), x)
  {
    hide PairAgrees, ListAgrees, Announces;
    var e := g.conns[id].out[0];
    assert e in g.conns[id].out;
    if e.to == c {
      if Left(x) in Log(g, c) {
        WithdrawnIsGone(g, c, x);
        assert Proper(g, id, e);
        assert id == x ==> e.msg in PendingMessages(g, x, c);
        JoinIsNews(g, id, e, c, x);
      }
      ListSnoc(Log(g, c), e.msg, x);
    }
  }

  lemma JoinIsNews(g: State, id: Uuid, e: Envelope, c: Uuid, x: Uuid)
    requires id in g.conns && Proper(g, id, e) && e.to == c
    requires x in g.conns && g.conns[x].phase.Gone? && (id == x ==> e.msg != Left(x))
    ensures e.msg != Left(x) && !(e.msg.Join? && e.msg.peer.id == x)
  {
  }

  lemma SendLists(limits: Limits, g: State, id: Uuid, c: Uuid, x: Uuid)
    requires ConnsAgree(g) && Enabled(g, Send(id)) && Present(g, c) && ListAgrees(Log(g, c), x)
    ensures ListAgrees(Log(Next(limits, g, Send(id)), c), x)
  {
    hide ListAgrees;
    var e := g.conns[id].work[0];
    assert e in g.conns[id].work && Fitting(g, id, e);
    if e.to == c {
      ListSnoc(Log(g, c), e.msg, x);
    }
  }

  ghost predicate ListsAgree(g: State) {
    forall c, x :: Present(g, c) && c != x ==> ListAgrees(Log(g, c), x)
  }

  lemma NextLists(limits: Limits, g: State, step: Step)
    requires ConnsAgree(g) && ViewsAgree(g) && ListsAgree(g) && Enabled(g, step)
    ensures ListsAgree(Next(limits, g, step))
  {
    hide PairAgrees, ListAgrees, ConnsAgree;
    var g' := Next(limits, g, step);
    forall c, x | Present(g', c) && c != x ensures ListAgrees(Log(g', c), x) {
      if step.Deliver? {
        DeliverLists(limits, g, step.id, c, x);
      } else if step.Send? {
        SendLists(limits, g, step.id, c, x);
      } else if Present(g, c) {
        assert Log(g', c) == Log(g, c);
      } else {
        assert Log(g', c) == [];
        EmptyList(x);
      }
    }
  }

  lemma EmptyList(x: Uuid)
    ensures ListAgrees([], x)
  {
  }

  lemma {:induction false} RunLists(limits: Limits, steps: seq<Step>, g: State)
    requires Run(limits, steps) == Some(g)
    ensures ListsAgree(g)
    decreases |steps|
  {
    hide Next, Enabled, RoomsAgree, ConnsAgree, Bounded, ViewsAgree;
    if steps != [] {
      hide ListsAgree;
      var n := |steps| - 1;
      var before := Run(limits, steps[..n]).value;
      RunSound(limits, steps[..n], before);
      RunViews(limits, steps[..n], before);
      RunLists(limits, steps[..n], before);
      NextLists(limits, before, steps[n]);
    }
  }

  /** Nothing that concerns `x` is under way to `c`. */
  predicate Quiet(g: State, c: Uuid, x: Uuid) {
    && (forall e :: e in Outbox(g, c) ==> e.to != c)
    && (forall e :: e in Outbox(g, x) ==> e.to != c)
    && (forall e :: e in Work(g, x) ==> e.to != c)
  }

  lemma {:induction false} RevisionsIff(log: seq<ServerMessage>, x: Uuid)
    ensures Revisions(log, x) != [] <==> exists i :: 0 <= i < |log| && Updating(log[i], x)
    decreases |log|
  {
    if log != [] {
      var n := |log| - 1;
      RevisionsIff(log[..n], x);
      assert log == log[..n] + [log[n]];
    }
  }

  /** What the log alone says, when nothing else is to come. */
  lemma QuietLog(g: State, c: Uuid, x: Uuid)
    requires Quiet(g, c, x)
    ensures Told(g, c, x) == Heard(Log(g, c), x) && Updates(g, c, x) == Revisions(Log(g, c), x)
    ensures Left(x) in Log(g, c) <==> Dropped in Told(g, c, x)
    ensures Mentions(Log(g, c), x) <==> Knows(Told(g, c, x)) || Updates(g, c, x) != []
  {
    hide Heard, Revisions, Announces, Knows;
    var log := Log(g, c);
    NothingPending(Outbox(g, c), c, x);
    NothingPending(Outbox(g, x), c, x);
    NothingPending(Work(g, x), c, x);
    assert Revisions(log, x) + [] == Revisions(log, x);
    HeardIff(log, x);
    RevisionsIff(log, x);
  }

  /** Once everything has arrived, the list of such a client is its room, except for peers whose withdrawal overtook the
      Hello that mentions them or their last update: those stay on the list for good, although they are gone. */
  lemma ClientListIff(limits: Limits, steps: seq<Step>, g: State, c: Uuid, x: Uuid)
    requires Run(limits, steps) == Some(g) && Present(g, c) && c != x && Quiet(g, c, x)
    ensures x in Room(g.rooms, g.conns[c].group) ==> Listed(Log(g, c), x)
    ensures x !in Room(g.rooms, g.conns[c].group) ==> (Listed(Log(g, c), x) <==> Overtaken(Log(g, c), x))
  {
    hide Run, ConnsAgree, Told, Updates, Announced, Withdrawn;
    RunSound(limits, steps, g);
    RunViews(limits, steps, g);
    RunLists(limits, steps, g);
    assert PairAgrees(g, c, x) && ListAgrees(Log(g, c), x);
    QuietLog(g, c, x);
    hide Listed, Overtaken, Mentions;
    LateOnly(Log(g, c), x);
    NoneKnown();
    var room := Room(g.rooms, g.conns[c].group);
    if x in room {
      assert Present(g, x) && Together(g, c, x);
      var known :| Told(g, c, x) == multiset{Known(known)};
      OneKnown(known);
    } else if x in g.conns && Together(g, c, x) {
      assert !Present(g, x);
    }
  }

  lemma LateOnly(log: seq<ServerMessage>, x: Uuid)
    ensures Overtaken(log, x) ==> Left(x) in log
  {
  }

  // ---- A peer that stays on the list ------------------------------------------------------------

  ghost predicate Reachable(limits: Limits, g: State) {
    exists steps: seq<Step> :: Run(limits, steps) == Some(g)
  }

  lemma Reach(limits: Limits, g: State, step: Step)
    requires Reachable(limits, g) && Enabled(g, step)
    ensures Reachable(limits, Next(limits, g, step))
  {
    hide Next, Enabled;
    var steps: seq<Step> :| Run(limits, steps) == Some(g);
    assert (steps + [step])[..|steps|] == steps;
    assert Run(limits, steps + [step]) == Some(Next(limits, g, step));
  }

  /** `x` is alone in its room, and has been greeted. */
  lemma Alone(limits: Limits, group: string, x: ClientInfo) returns (g: State)
    requires limits.connections >= 2 && limits.requests >= 2
    ensures Reachable(limits, g)
    ensures g == State(map[group := map[x.id := x.info]], map[group := 1],
                       map[x.id := Settled(group, x)], map[x.id := [Hello(x, [])]])
  {
    assert Run(limits, []) == Some(INITIAL);
    var g0 := INITIAL;
    Reach(limits, g0, Connect(group, x, []));
    var g1 := Connected(limits, g0, group, x, []);
    var hello := Envelope(x.id, Hello(x, []));
    assert [] + [hello] == [hello];
    assert g1 == State(map[group := map[x.id := x.info]], map[group := 1],
                       map[x.id := Conn(group, x, Greeting, [hello], Absent, None, [], [])], map[x.id := []]);
    Reach(limits, g1, Deliver(x.id));
    g := Next(limits, g1, Deliver(x.id));
    assert [hello][1..] == [] && [] + [hello.msg] == [hello.msg];
  }

  function Settled(group: string, x: ClientInfo): Conn {
    Conn(group, x, Running, [], Busy, None, [], [])
  }

  function Greeted(group: string, x: ClientInfo, c: ClientInfo): Conn {
    Conn(group, c, Greeting, [Envelope(x.id, Join(c)), Envelope(c.id, Hello(c, [x]))], Absent, None, [], [])
  }

  /** `c` came while `x` was there. */
  lemma Newcomer(limits: Limits, group: string, x: ClientInfo, c: ClientInfo) returns (g: State)
    requires limits.connections >= 2 && limits.requests >= 2 && c.id != x.id
    ensures Reachable(limits, g) && g.rooms == map[group := map[x.id := x.info, c.id := c.info]]
    ensures g.conns == map[x.id := Settled(group, x), c.id := Greeted(group, x, c)]
    ensures g.logs == map[x.id := [Hello(x, [])], c.id := []]
  {
    var g0 := Alone(limits, group, x);
    NewcomerAdmitted(limits, group, x, c);
    NewcomerGreeting(x, c);
    hide Registered, Infos, ToAll;
    Reach(limits, g0, Connect(group, c, [x.id]));
    g := Connected(limits, g0, group, c, [x.id]);
  }

  lemma NewcomerAdmitted(limits: Limits, group: string, x: ClientInfo, c: ClientInfo)
    requires limits.connections >= 2 && limits.requests >= 2 && c.id != x.id
    ensures Registered(limits, map[group := map[x.id := x.info]], map[group := 1], group, c)
         == (true, map[group := map[x.id := x.info, c.id := c.info]], map[group := 2])
  {
    var room, room' := map[x.id := x.info], map[x.id := x.info, c.id := c.info];
    assert room[c.id := c.info] == room' && |room| == 1;
    assert map[group := room][group := room'] == map[group := room'] && map[group := 1][group := 2] == map[group := 2];
  }

  lemma NewcomerGreeting(x: ClientInfo, c: ClientInfo)
    ensures ToAll([x.id], Join(c)) + [Envelope(c.id, Hello(c, Infos(map[x.id := x.info], [x.id])))]
         == [Envelope(x.id, Join(c)), Envelope(c.id, Hello(c, [x]))]
  {
    var room := map[x.id := x.info];
    assert Infos(room, [x.id]) == [x] + Infos(room, []) == [x];
    ToOne(x.id, Join(c));
  }

  lemma ToOne(id: Uuid, msg: ServerMessage)
    ensures ToAll([id], msg) == [Envelope(id, msg)]
  {
    assert [id][1..] == [];
  }

  /** `x` goes, with `c` still there: its worker is not aborted yet, and keeps what it has to send. */
  lemma Departure(limits: Limits, g: State, group: string, x: Uuid, c: Uuid) returns (g': State)
    requires Reachable(limits, g) && x != c && x in g.conns && g.conns[x].group == group && g.conns[x].phase.Running?
    requires Room(g.rooms, group).Keys == {x, c}
    ensures Reachable(limits, g') && g'.logs == g.logs && Room(g'.rooms, group).Keys == {c}
    ensures g'.conns == g.conns[x := g.conns[x].(phase := Gone, out := [Envelope(c, Left(x))])]
  {
    ToOne(c, Left(x));
    hide ToAll;
    Reach(limits, g, Close(x));
    var g1 := Next(limits, g, Close(x));
    assert Room(g.rooms, group).Keys - {x} == {c};
    Reach(limits, g1, Remove(x, [c]));
    g' := Removed(g1, x, [c]);
    DismissedRoom(g1.rooms, group, x, group);
  }

  /** The overtaking does happen: a client with nothing more to come that lists a peer which is gone. */
  lemma GhostStays(limits: Limits, group: string, x: ClientInfo, c: ClientInfo) returns (g: State)
    requires limits.connections >= 2 && limits.requests >= 2 && c.id != x.id
    ensures Reachable(limits, g) && Present(g, c.id) && Quiet(g, c.id, x.id)
    ensures x.id !in Room(g.rooms, g.conns[c.id].group) && Listed(Log(g, c.id), x.id)
  {
    var g0 := Newcomer(limits, group, x, c);
    var g1 := Departure(limits, g0, group, x.id, c.id);
    Reach(limits, g1, Deliver(x.id));
    var g2 := Next(limits, g1, Deliver(x.id));
    assert g2.logs[c.id] == [] + [Left(x.id)];
    Reach(limits, g2, Deliver(c.id));
    var g3 := Next(limits, g2, Deliver(c.id));
    Reach(limits, g3, Deliver(c.id));
    g := Next(limits, g3, Deliver(c.id));
    var hello := Hello(c, [x]);
    assert [x][0].id == x.id && Announces(hello, x.id);
    assert Log(g, c.id)[|Log(g, c.id)| - 1] == hello;
  }

  /** `x` came while `c` was there, and both have been greeted. */
  lemma BothGreeted(limits: Limits, group: string, x: ClientInfo, c: ClientInfo) returns (g: State)
    requires limits.connections >= 2 && limits.requests >= 2 && c.id != x.id
    ensures Reachable(limits, g) && g.rooms == map[group := map[c.id := c.info, x.id := x.info]] && g.counts == map[]
    ensures g.conns == map[c.id := Settled(group, c), x.id := Settled(group, x)]
    ensures g.logs.Keys == {c.id, x.id}
  {
    var g0 := Newcomer(limits, group, c, x);
    var greeting := [Envelope(c.id, Join(x)), Envelope(x.id, Hello(x, [c]))];
    assert greeting[1..] == [greeting[1]] && [greeting[1]][1..] == [];
    Reach(limits, g0, Deliver(x.id));
    var g1 := Next(limits, g0, Deliver(x.id));
    Reach(limits, g1, Deliver(x.id));
    var g2 := Next(limits, g1, Deliver(x.id));
    Reach(limits, g2, Clear);
    g := Next(limits, g2, Clear);
  }

  /** The worker of `x` has an update for `c` to send. */
  lemma UpdateUnderWay(limits: Limits, group: string, x: ClientInfo, c: ClientInfo) returns (g: State)
    requires limits.connections >= 2 && limits.requests >= 2 && c.id != x.id
    ensures Reachable(limits, g) && Room(g.rooms, group).Keys == {c.id, x.id} && g.conns.Keys == g.logs.Keys == {c.id, x.id}
    ensures g.conns[c.id] == Settled(group, c)
    ensures g.conns[x.id].group == group && g.conns[x.id].phase.Running?
    ensures g.conns[x.id].out == [] && g.conns[x.id].work == [Envelope(c.id, ServerMessage.Update(x))]
  {
    var g0 := BothGreeted(limits, group, x, c);
    Reach(limits, g0, Ask(x.id, Revise(x.info)));
    var g1 := Asked(limits, g0, x.id, Revise(x.info));
    assert Room(g1.rooms, group).Keys - {x.id} == {c.id};
    ToOne(c.id, ServerMessage.Update(ClientInfo(x.id, x.info)));
    hide ToAll;
    Reach(limits, g1, Handle(x.id, [c.id]));
    g := Handled(g1, x.id, [c.id]);
    RevisionAddsNobody(g1.rooms, group, x.id, x.info, group);
  }

  /** So does the other: the connection of `x` was closed and its withdrawal sent, while its worker, not aborted yet,
      still had an update to send. */
  lemma UpdateStays(limits: Limits, group: string, x: ClientInfo, c: ClientInfo) returns (g: State)
    requires limits.connections >= 2 && limits.requests >= 2 && c.id != x.id
    ensures Reachable(limits, g) && Present(g, c.id) && Quiet(g, c.id, x.id)
    ensures x.id !in Room(g.rooms, g.conns[c.id].group) && Listed(Log(g, c.id), x.id)
  {
    var g0 := UpdateUnderWay(limits, group, x, c);
    var g1 := Departure(limits, g0, group, x.id, c.id);
    Reach(limits, g1, Deliver(x.id));
    var g2 := Next(limits, g1, Deliver(x.id));
    Reach(limits, g2, Send(x.id));
    g := Next(limits, g2, Send(x.id));
    assert Log(g, c.id)[|Log(g, c.id)| - 1] == ServerMessage.Update(x);
  }
}
