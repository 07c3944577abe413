/** The signaling server's shared state: who is in which room, and how often a room has called. */
module Registry {
  import opened Basics
  import opened Model

  datatype Limits = Limits(connections: nat, requests: nat)

  /** Group -> peer -> what the peer last said about itself. */
  type Rooms = map<string, map<Uuid, ClientInfoWithoutId>>

  type Counts = map<string, nat>

  function Room(rooms: Rooms, group: string): map<Uuid, ClientInfoWithoutId> {
    if group in rooms then rooms[group] else map[]
  }

  function CountOf(counts: Counts, group: string): nat {
    if group in counts then counts[group] else 0
  }

  /** An enumeration of `keys`, in whatever order the hash table yields them. */
  predicate IsOrder(order: seq<Uuid>, keys: set<Uuid>) {
    && (forall i, j :: 0 <= i < j < |order| ==> order[i] != order[j])
    && (forall x :: x in order ==> x in keys)
    && (forall x :: x in keys ==> x in order)
  }

  /** Whether one more request is allowed, and the counters afterwards. */
  function Protected(limits: Limits, counts: Counts, group: string): (bool, Counts) {
    var count := CountOf(counts, group);
    if count >= limits.requests then (false, counts[group := count])
    else (true, counts[group := count + 1])
  }

  /** The counters after requests of these groups, one after the other. */
  function Served(limits: Limits, counts: Counts, asks: seq<string>): Counts
    decreases |asks|
  {
    if asks == [] then counts
    else Protected(limits, Served(limits, counts, asks[..|asks| - 1]), asks[|asks| - 1]).1
  }

  /** How many of them were granted to `group`. */
  function Granted(limits: Limits, counts: Counts, asks: seq<string>, group: string): nat
    decreases |asks|
  {
    if asks == [] then 0
    else
      var n := |asks| - 1;
      Granted(limits, counts, asks[..n], group)
      + (if asks[n] == group && Protected(limits, Served(limits, counts, asks[..n]), group).0 then 1 else 0)
  }

  function Capped(n: nat, limit: nat): nat {
    if n <= limit then n else limit
  }

  /** A refused peer leaves its group's entry behind, which may be empty. */
  function Registered(limits: Limits, rooms: Rooms, counts: Counts, group: string, peer: ClientInfo)
    : (bool, Rooms, Counts)
  {
    var room := Room(rooms, group);
    var rooms' := rooms[group := room];
    if |room| >= limits.connections then (false, rooms', counts)
    else
      match Protected(limits, counts, group)
      case (false, counts') => (false, rooms', counts')
      case (true, counts') => (true, rooms[group := room[peer.id := peer.info]], counts')
  }

  function Revised(rooms: Rooms, group: string, id: Uuid, info: ClientInfoWithoutId): Rooms {
    if id in Room(rooms, group) then rooms[group := rooms[group][id := info]] else rooms
  }

  function Dismissed(rooms: Rooms, group: string, id: Uuid): Rooms {
    if group !in rooms then rooms
    else
      var room := rooms[group] - {id};
      if room == map[] then rooms - {group} else rooms[group := room]
  }

  function Infos(room: map<Uuid, ClientInfoWithoutId>, order: seq<Uuid>): seq<ClientInfo>
    requires forall x :: x in order ==> x in room
  {
    if order == [] then []
    else [ClientInfo(order[0], room[order[0]])] + Infos(room, order[1..])
  }

  /** The keys of a map, one after the other. */
  method KeysInOrder(room: map<Uuid, ClientInfoWithoutId>) returns (order: seq<Uuid>)
    ensures IsOrder(order, room.Keys)
  {
    var left := room.Keys;
    order := [];
    while left != {}
      invariant left <= room.Keys && IsOrder(order, room.Keys - left)
      decreases |left|
    {
      var x :| x in left;
      order := order + [x];
      left := left - {x};
    }
  }

  class AppState {
    const limits: Limits
    var txMap: Rooms
    var requestCounts: Counts

    constructor (limits: Limits)
      ensures this.limits == limits && txMap == map[] && requestCounts == map[]
    {
      this.limits := limits;
      txMap := map[];
      requestCounts := map[];
    }

    method ProtectRequestCount(group: string) returns (ok: bool)
      modifies this`requestCounts
      ensures (ok, requestCounts) == Protected(limits, old(requestCounts), group)
    {
      if group !in requestCounts {
        requestCounts := requestCounts[group := 0];
      }
      assert requestCounts == old(requestCounts)[group := CountOf(old(requestCounts), group)];
      if requestCounts[group] >= limits.requests {
        return false;
      }
      requestCounts := requestCounts[group := requestCounts[group] + 1];
      assert requestCounts == old(requestCounts)[group := CountOf(old(requestCounts), group) + 1];
      ok := true;
    }

    /** The first locked section of a connection: whom to tell about the newcomer, and whom to tell it about. */
    method Register(group: string, peer: ClientInfo)
      returns (admitted: bool, peersTx: seq<Uuid>, peers: seq<ClientInfo>)
      modifies this
      ensures (admitted, txMap, requestCounts) == Registered(limits, old(txMap), old(requestCounts), group, peer)
      ensures !admitted ==> peersTx == [] && peers == []
      ensures admitted ==> && IsOrder(peersTx, Room(old(txMap), group).Keys)
                           && peers == Infos(Room(old(txMap), group), peersTx)
    {
      peersTx, peers := [], [];
      if group !in txMap {
        txMap := txMap[group := map[]];
      }
      assert txMap == old(txMap)[group := Room(old(txMap), group)];
      var local := txMap[group];
      if |local| >= limits.connections {
        return false, [], [];
      }
      var ok := ProtectRequestCount(group);
      if !ok {
        return false, [], [];
      }
      peersTx := KeysInOrder(local);
      peers := Collect(local, peersTx);
      txMap := txMap[group := local[peer.id := peer.info]];
      assert txMap == old(txMap)[group := local[peer.id := peer.info]];
      admitted := true;
    }

    /** Stores what a peer says about itself; the others in its group are to be told. */
    method SetInfo(group: string, id: Uuid, info: ClientInfoWithoutId) returns (peersTx: seq<Uuid>)
      modifies this`txMap
      ensures txMap == Revised(old(txMap), group, id, info)
      ensures if id in Room(old(txMap), group) then IsOrder(peersTx, Room(old(txMap), group).Keys - {id})
              else peersTx == []
    {
      peersTx := [];
      if group in txMap && id in txMap[group] {
        txMap := txMap[group := txMap[group][id := info]];
        var all := KeysInOrder(txMap[group]);
        peersTx := Without(all, id, txMap[group].Keys);
        assert txMap[group].Keys == old(txMap)[group].Keys;
      }
    }

    method FindPeer(group: string, target: Uuid) returns (found: bool)
      ensures found == (target in Room(txMap, group))
    {
      found := group in txMap && target in txMap[group];
    }

    /** The last locked section of a connection: whom to tell that the peer is gone. */
    method Unregister(group: string, id: Uuid) returns (remainingTx: seq<Uuid>)
      modifies this`txMap
      ensures txMap == Dismissed(old(txMap), group, id)
      ensures IsOrder(remainingTx, Room(old(txMap), group).Keys - {id})
    {
      remainingTx := [];
      if group in txMap {
        var local := txMap[group] - {id};
        if local == map[] {
          assert old(txMap)[group].Keys - {id} == local.Keys == {};
          txMap := txMap - {group};
        } else {
          txMap := txMap[group := local];
          remainingTx := KeysInOrder(local);
        }
      }
    }

    /** The hourly job. From then on every group is granted requests up to the limit again, whatever it had used. */
    method ClearCounts()
      modifies this`requestCounts
      ensures requestCounts == map[]
      ensures forall asks, group ::
                Granted(limits, requestCounts, asks, group) == Capped(multiset(asks)[group], limits.requests)
    {
      requestCounts := map[];
      forall asks, group
        ensures Granted(limits, map[], asks, group) == Capped(multiset(asks)[group], limits.requests)
      {
        Budget(limits, map[], asks, group);
      }
    }
  }

  method Collect(room: map<Uuid, ClientInfoWithoutId>, order: seq<Uuid>) returns (peers: seq<ClientInfo>)
    requires forall x :: x in order ==> x in room
    ensures peers == Infos(room, order)
  {
    var left := order;
    peers := [];
    while left != []
      invariant forall x :: x in left ==> x in room
      invariant peers + Infos(room, left) == Infos(room, order)
    {
      peers := peers + [ClientInfo(left[0], room[left[0]])];
      left := left[1..];
    }
  }

  method Without(all: seq<Uuid>, id: Uuid, ghost keys: set<Uuid>) returns (rest: seq<Uuid>)
    requires IsOrder(all, keys)
    ensures IsOrder(rest, keys - {id})
  {
    rest := [];
    for i := 0 to |all|
      invariant forall x :: x in rest <==> x in all[..i] && x != id
      invariant forall a, b :: 0 <= a < b < |rest| ==> rest[a] != rest[b]
    {
      assert all[..i + 1] == all[..i] + [all[i]];
      if all[i] != id {
        assert all[i] !in all[..i];
        rest := rest + [all[i]];
      }
    }
    assert all[..|all|] == all;
  }

  // ---- The admission rules ----------------------------------------------------------------------

  /** However the requests of different groups mix, each group is granted what is left of its own budget. */
  lemma {:induction false} Budget(limits: Limits, counts: Counts, asks: seq<string>, group: string)
    ensures var (count, granted) := (CountOf(counts, group), Granted(limits, counts, asks, group));
            && granted == Capped(multiset(asks)[group], if count <= limits.requests then limits.requests - count else 0)
            && CountOf(Served(limits, counts, asks), group) == count + granted
    decreases |asks|
  {
    if asks != [] {
      Budget(limits, counts, asks[..|asks| - 1], group);
      assert asks == asks[..|asks| - 1] + [asks[|asks| - 1]];
    }
  }

  /** A peer is admitted exactly if neither limit is reached; then it is added to its room, and otherwise nothing
      happens to any room. */
  lemma AdmittedIff(limits: Limits, rooms: Rooms, counts: Counts, group: string, peer: ClientInfo)
    ensures var (admitted, rooms', counts') := Registered(limits, rooms, counts, group, peer);
            && (admitted <==> |Room(rooms, group)| < limits.connections && CountOf(counts, group) < limits.requests)
            && forall other :: Room(rooms', other) ==
                 if admitted && other == group then Room(rooms, group)[peer.id := peer.info] else Room(rooms, other)
  {
  }

  lemma MapGrows<K, V>(m: map<K, V>, k: K, v: V)
    requires k !in m
    ensures |m[k := v]| == |m| + 1
  {
    assert m[k := v].Keys == m.Keys + {k};
  }

  /** A peer that is gone cannot come back by way of an update, and no update adds or removes anyone. */
  lemma RevisionAddsNobody(rooms: Rooms, group: string, id: Uuid, info: ClientInfoWithoutId, other: string)
    ensures Room(Revised(rooms, group, id, info), other).Keys == Room(rooms, other).Keys
  {
  }

  lemma DismissedRoom(rooms: Rooms, group: string, id: Uuid, other: string)
    ensures Room(Dismissed(rooms, group, id), other)
         == if other == group then Room(rooms, group) - {id} else Room(rooms, other)
  {
    if group in rooms && rooms[group] - {id} == map[] {
      assert Room(rooms, group) - {id} == map[];
    }
  }
}
