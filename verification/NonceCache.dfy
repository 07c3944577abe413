/** The nonces that HTTP client and server remember of each other, in caches that forget the least recently used. */
module NonceCache {
  import opened Basics
  import Base64
  import Handshake

  const CAPACITY: nat := 200

  /** A peer's identifier with a nonce. */
  datatype Entry = Entry(key: string, nonce: bytes)

  function Without(entries: seq<Entry>, key: string): (rest: seq<Entry>)
    ensures |rest| <= |entries|
  {
    if entries == [] then []
    else if entries[0].key == key then Without(entries[1..], key)
    else [entries[0]] + Without(entries[1..], key)
  }

  function Take<T>(items: seq<T>, n: nat): seq<T> {
    if |items| <= n then items else items[..n]
  }

  /** A cache, the most recently used entry first. */
  class LruCache {
    const capacity: nat
    var entries: seq<Entry>

    constructor (capacity: nat)
      ensures this.capacity == capacity && entries == []
    {
      this.capacity := capacity;
      entries := [];
    }

    /** The entry of `key` becomes the first one; a new key may push out the last. */
    method Put(key: string, nonce: bytes)
      modifies this
      ensures entries == Take([Entry(key, nonce)] + Without(old(entries), key), capacity)
    {
      var left, kept := entries, [];
      while left != []
        invariant kept + Without(left, key) == Without(entries, key)
        invariant entries == old(entries)
      {
        if left[0].key != key {
          kept := kept + [left[0]];
        }
        left := left[1..];
      }
      entries := [Entry(key, nonce)] + kept;
      if |entries| > capacity {
        entries := entries[..capacity];
      }
    }
  }

  /** What one completed exchange leaves behind on one side. */
  datatype Exchange = Exchange(key: string, received: bytes, generated: bytes)

  function Received(history: seq<Exchange>): seq<Entry> {
    if history == [] then []
    else Received(history[..|history| - 1]) + [Entry(history[|history| - 1].key, history[|history| - 1].received)]
  }

  function Generated(history: seq<Exchange>): seq<Entry> {
    if history == [] then []
    else Generated(history[..|history| - 1]) + [Entry(history[|history| - 1].key, history[|history| - 1].generated)]
  }

  /** A cache of capacity `n` after the puts `puts`. */
  function Cached(puts: seq<Entry>, n: nat): seq<Entry> {
    if puts == [] then []
    else
      var last := puts[|puts| - 1];
      Take([last] + Without(Cached(puts[..|puts| - 1], n), last.key), n)
  }

  datatype Refusal = InvalidFormat | InvalidNonce

  datatype Reply = Nonce(nonce: string) | Refused(reason: Refusal)

  /** The nonces of one device, as server or as client. */
  class NonceMaps {
    const received: LruCache
    const generated: LruCache
    ghost var history: seq<Exchange>

    ghost predicate Valid()
      reads this, received, generated
    {
      && received != generated && received.capacity == generated.capacity == CAPACITY
      && received.entries == Cached(Received(history), CAPACITY)
      && generated.entries == Cached(Generated(history), CAPACITY)
    }

    constructor ()
      ensures Valid() && history == [] && fresh(received) && fresh(generated)
    {
      received := new LruCache(CAPACITY);
      generated := new LruCache(CAPACITY);
      history := [];
    }

    method Remember(key: string, receivedNonce: bytes, generatedNonce: bytes)
      requires Valid()
      modifies this, received, generated
      ensures Valid() && history == old(history) + [Exchange(key, receivedNonce, generatedNonce)]
    {
      received.Put(key, receivedNonce);
      generated.Put(key, generatedNonce);
      ghost var done := history + [Exchange(key, receivedNonce, generatedNonce)];
      assert done[..|history|] == history;
      CachedSnoc(Received(history), Entry(key, receivedNonce), CAPACITY);
      CachedSnoc(Generated(history), Entry(key, generatedNonce), CAPACITY);
      history := done;
    }

    /** The server's half. The nonce sent back is random; here it is `newNonce`. */
    method NonceExchange(payload: string, remoteKey: string, newNonce: bytes) returns (reply: Reply)
      requires Valid()
      modifies this, received, generated
      ensures Valid()
      ensures match Base64.Decode(payload)
              case None => reply == Refused(InvalidFormat) && history == old(history)
              case Some(nonce) =>
                if |nonce| < 16 || |nonce| > 128 then reply == Refused(InvalidNonce) && history == old(history)
                else && reply == Reply.Nonce(Base64.Encode(newNonce))
                     && history == old(history) + [Exchange(remoteKey, nonce, newNonce)]
    {
      var nonce := Base64.Decode(payload);
      if nonce.None? {
        return Refused(InvalidFormat);
      }
      if !Handshake.ValidateNonce(nonce.value) {
        return Refused(InvalidNonce);
      }
      Remember(remoteKey, nonce.value, newNonce);
      return Reply.Nonce(Base64.Encode(newNonce));
    }

    /** The client's half, once the server has replied. The client takes a nonce of any length. */
    method OnReply(reply: Reply, remoteKey: string, sentNonce: bytes) returns (ok: bool)
      requires Valid()
      modifies this, received, generated
      ensures Valid()
      ensures ok == (reply.Nonce? && Base64.Decode(reply.nonce).Some?)
      ensures history == if ok then old(history) + [Exchange(remoteKey, Base64.Decode(reply.nonce).value, sentNonce)]
                         else old(history)
    {
      if reply.Refused? {
        return false;
      }
      var nonce := Base64.Decode(reply.nonce);
      if nonce.None? {
        return false;
      }
      Remember(remoteKey, nonce.value, sentNonce);
      return true;
    }
  }

  lemma CachedSnoc(puts: seq<Entry>, last: Entry, n: nat)
    ensures Cached(puts + [last], n) == Take([last] + Without(Cached(puts, n), last.key), n)
  {
    assert (puts + [last])[..|puts|] == puts;
  }

  // ---- What a cache holds -----------------------------------------------------------------------

  function Keys(entries: seq<Entry>): seq<string> {
    if entries == [] then [] else [entries[0].key] + Keys(entries[1..])
  }

  /** Of a history, the latest entry of each key, the most recent first: what an unbounded cache would hold. */
  function Recent(puts: seq<Entry>): seq<Entry> {
    if puts == [] then []
    else
      var last := puts[|puts| - 1];
      [last] + Without(Recent(puts[..|puts| - 1]), last.key)
  }

  function KeySet(entries: seq<Entry>): set<string> {
    set e | e in entries :: e.key
  }

  ghost predicate Distinct(entries: seq<Entry>) {
    forall i, j :: 0 <= i < j < |entries| ==> entries[i].key != entries[j].key
  }

  lemma {:induction false} WithoutIn(entries: seq<Entry>, key: string)
    ensures forall e :: e in Without(entries, key) <==> e in entries && e.key != key
  {
    if entries != [] {
      WithoutIn(entries[1..], key);
      assert entries == [entries[0]] + entries[1..];
    }
  }

  lemma {:induction false} WithoutDistinct(entries: seq<Entry>, key: string)
    requires Distinct(entries)
    ensures Distinct(Without(entries, key))
  {
    if entries != [] {
      var rest := Without(entries[1..], key);
      WithoutDistinct(entries[1..], key);
      WithoutIn(entries[1..], key);
      forall i | 0 <= i < |rest| ensures rest[i].key != entries[0].key {
        assert rest[i] in rest;
        var j :| 0 <= j < |entries[1..]| && entries[1..][j] == rest[i];
        assert entries[j + 1] == rest[i];
      }
    }
  }

  lemma {:induction false} WithoutAbsent(entries: seq<Entry>, key: string)
    requires forall i :: 0 <= i < |entries| ==> entries[i].key != key
    ensures Without(entries, key) == entries
  {
    if entries != [] {
      WithoutAbsent(entries[1..], key);
    }
  }

  lemma {:induction false} RecentDistinct(puts: seq<Entry>)
    ensures Distinct(Recent(puts)) && KeySet(Recent(puts)) == KeySet(puts)
    decreases |puts|
  {
    if puts != [] {
      var n := |puts| - 1;
      RecentDistinct(puts[..n]);
      WithoutIn(Recent(puts[..n]), puts[n].key);
      WithoutDistinct(Recent(puts[..n]), puts[n].key);
      assert puts == puts[..n] + [puts[n]];
      KeysOfRecent(Recent(puts[..n]), puts[..n], puts[n]);
    }
  }

  lemma KeysOfRecent(recent: seq<Entry>, puts: seq<Entry>, last: Entry)
    requires KeySet(recent) == KeySet(puts)
    ensures KeySet([last] + Without(recent, last.key)) == KeySet(puts + [last])
  {
    WithoutIn(recent, last.key);
    forall key ensures key in KeySet([last] + Without(recent, last.key)) <==> key in KeySet(recent) || key == last.key {
      if key in KeySet(recent) && key != last.key {
        var e :| e in recent && e.key == key;
        assert e in [last] + Without(recent, last.key);
      }
      assert last in [last] + Without(recent, last.key);
    }
    forall key ensures key in KeySet(puts + [last]) <==> key in KeySet(puts) || key == last.key {
      if key in KeySet(puts) {
        var e :| e in puts && e.key == key;
        assert e in puts + [last];
      }
      assert last in puts + [last];
    }
  }

  /** Forgetting early makes no difference to what comes first. */
  lemma {:induction false} TakeWithout(entries: seq<Entry>, key: string, n: nat)
    requires n > 0 && Distinct(entries)
    ensures Take(Without(Take(entries, n), key), n - 1) == Take(Without(entries, key), n - 1)
    decreases |entries|
  {
    if |entries| > n {
      var (e, tail) := (entries[0], entries[1..]);
      var front := tail[..n - 1];
      assert entries == [e] + tail && Take(entries, n) == [e] + front && Take(tail, n - 1) == front;
      WithoutCons(e, tail, key);
      WithoutCons(e, front, key);
      if e.key == key {
        WithoutAbsent(tail, key);
        WithoutAbsent(front, key);
      } else if n > 1 {
        hide Without, Take;
        TakeWithout(tail, key, n - 1);
        TakeCons(e, Without(front, key), n - 1);
        TakeCons(e, Without(tail, key), n - 1);
      }
    }
  }

  lemma WithoutCons(e: Entry, tail: seq<Entry>, key: string)
    ensures Without([e] + tail, key) == (if e.key == key then [] else [e]) + Without(tail, key)
  {
    assert ([e] + tail)[1..] == tail;
  }

  /** A cache holds the first `n` of what an unbounded one would hold. */
  lemma {:induction false} CachedIsRecent(puts: seq<Entry>, n: nat)
    requires n > 0
    ensures Cached(puts, n) == Take(Recent(puts), n)
    decreases |puts|
  {
    if puts != [] {
      var before, last := puts[..|puts| - 1], puts[|puts| - 1];
      CachedIsRecent(before, n);
      RecentDistinct(before);
      TakeWithout(Recent(before), last.key, n);
      TakeCons(last, Without(Take(Recent(before), n), last.key), n);
      TakeCons(last, Without(Recent(before), last.key), n);
    }
  }

  lemma TakeCons(e: Entry, entries: seq<Entry>, n: nat)
    requires n > 0
    ensures Take([e] + entries, n) == [e] + Take(entries, n - 1)
  {
  }

  /** The identifiers used after the last exchange with `key`. */
  function Later(puts: seq<Entry>, key: string): set<string>
    decreases |puts|
  {
    if puts == [] then {}
    else
      var last := puts[|puts| - 1].key;
      if last == key then {} else Later(puts[..|puts| - 1], key) + {last}
  }

  /** The nonce of the last exchange with `key`. */
  function LatestNonce(puts: seq<Entry>, key: string): Option<bytes>
    decreases |puts|
  {
    if puts == [] then None
    else
      var last := puts[|puts| - 1];
      if last.key == key then Some(last.nonce) else LatestNonce(puts[..|puts| - 1], key)
  }

  function Lookup(entries: seq<Entry>, key: string): Option<bytes> {
    if entries == [] then None
    else if entries[0].key == key then Some(entries[0].nonce)
    else Lookup(entries[1..], key)
  }

  /** The entries in front of `key`. */
  function Before(entries: seq<Entry>, key: string): (front: seq<Entry>)
    ensures |front| <= |entries| && front == entries[..|front|]
  {
    if entries == [] || entries[0].key == key then [] else [entries[0]] + Before(entries[1..], key)
  }

  lemma {:induction false} BeforeWithout(entries: seq<Entry>, key: string, other: string)
    requires other != key
    ensures Before(Without(entries, other), key) == Without(Before(entries, key), other)
    ensures Lookup(Without(entries, other), key) == Lookup(entries, key)
  {
    if entries != [] {
      BeforeWithout(entries[1..], key, other);
      if entries[0].key != key {
        assert Before(entries, key)[1..] == Before(entries[1..], key);
      }
      if entries[0].key != other {
        assert Without(entries, other)[1..] == Without(entries[1..], other);
      }
    }
  }

  /** In front of `key` are exactly the identifiers used since; and its nonce is the latest. */
  lemma {:induction false} RecentOrder(puts: seq<Entry>, key: string)
    ensures key in KeySet(puts) ==> KeySet(Before(Recent(puts), key)) == Later(puts, key)
    ensures Lookup(Recent(puts), key) == LatestNonce(puts, key)
    ensures LatestNonce(puts, key).Some? <==> key in KeySet(puts)
    decreases |puts|
  {
    if puts != [] {
      var init, last := puts[..|puts| - 1], puts[|puts| - 1];
      assert puts == init + [last];
      RecentOrder(init, key);
      var recent := Recent(puts);
      assert recent[0] == last && recent[1..] == Without(Recent(init), last.key);
      if last.key != key {
        BeforeWithout(Recent(init), key, last.key);
        if key in KeySet(puts) {
          KeyOfInit(init, last, key);
          KeysOfRecent(Before(Recent(init), key), Before(Recent(init), key), last);
          KeysAppend(Before(Recent(init), key), last);
        }
      } else {
        assert last in puts;
      }
    }
  }

  lemma KeyOfInit(init: seq<Entry>, last: Entry, key: string)
    requires key in KeySet(init + [last]) && last.key != key
    ensures key in KeySet(init)
  {
  }

  lemma KeysAppend(entries: seq<Entry>, last: Entry)
    ensures KeySet(entries + [last]) == KeySet(entries) + {last.key}
  {
    forall key ensures key in KeySet(entries + [last]) <==> key in KeySet(entries) || key == last.key {
      if key in KeySet(entries) {
        var e :| e in entries && e.key == key;
        assert e in entries + [last];
      }
      assert last in entries + [last];
    }
  }

  lemma {:induction false} DistinctCount(entries: seq<Entry>)
    requires Distinct(entries)
    ensures |KeySet(entries)| == |entries|
  {
    if entries == [] {
      assert KeySet(entries) == {};
    } else {
      var n := |entries| - 1;
      DistinctCount(entries[..n]);
      KeysAppend(entries[..n], entries[n]);
      assert entries == entries[..n] + [entries[n]];
      assert entries[n].key !in KeySet(entries[..n]);
    }
  }

  lemma {:induction false} LookupTake(entries: seq<Entry>, key: string, n: nat)
    ensures Lookup(Take(entries, n), key) == if |Before(entries, key)| < n then Lookup(entries, key) else None
  {
    if entries != [] && n > 0 {
      if entries[0].key != key {
        LookupTake(entries[1..], key, n - 1);
        assert Take(entries, n)[1..] == Take(entries[1..], n - 1);
      }
    }
  }

  /** A peer's nonce is remembered exactly until 200 other peers came after it, and it is always the latest one. */
  lemma RememberedIff(puts: seq<Entry>, key: string)
    ensures Lookup(Cached(puts, CAPACITY), key) == if |Later(puts, key)| < 200 then LatestNonce(puts, key) else None
  {
    RememberedWithin(puts, CAPACITY, key);
  }

  lemma RememberedWithin(puts: seq<Entry>, n: nat, key: string)
    requires n > 0
    ensures Lookup(Cached(puts, n), key) == if |Later(puts, key)| < n then LatestNonce(puts, key) else None
  {
    CachedIsRecent(puts, n);
    RecentOrder(puts, key);
    LookupTake(Recent(puts), key, n);
    RecentDistinct(puts);
    var front := Before(Recent(puts), key);
    assert Distinct(front);
    DistinctCount(front);
    if key !in KeySet(puts) {
      assert LatestNonce(puts, key) == None;
    }
  }

  // ---- Both caches of one device ----------------------------------------------------------------

  lemma {:induction false} KeysWithout(a: seq<Entry>, b: seq<Entry>, key: string)
    requires Keys(a) == Keys(b)
    ensures Keys(Without(a, key)) == Keys(Without(b, key))
    decreases |a|
  {
    if a != [] && b != [] {
      assert Keys(a)[0] == Keys(b)[0] && Keys(a)[1..] == Keys(b)[1..];
      KeysWithout(a[1..], b[1..], key);
    }
  }

  lemma KeysTake(a: seq<Entry>, b: seq<Entry>, n: nat)
    requires Keys(a) == Keys(b)
    ensures Keys(Take(a, n)) == Keys(Take(b, n))
  {
    KeysCount(a);
    KeysCount(b);
    if |a| > n {
      KeysPrefix(a, n);
      KeysPrefix(b, n);
    }
  }

  lemma {:induction false} KeysPrefix(entries: seq<Entry>, n: nat)
    requires n <= |entries|
    ensures n <= |Keys(entries)| && Keys(entries[..n]) == Keys(entries)[..n]
  {
    KeysCount(entries);
    if n > 0 {
      KeysPrefix(entries[1..], n - 1);
      assert entries[..n][1..] == entries[1..][..n - 1];
      assert Keys(entries) == [entries[0].key] + Keys(entries[1..]);
    }
  }

  lemma {:induction false} KeysCount(entries: seq<Entry>)
    ensures |Keys(entries)| == |entries|
  {
    if entries != [] {
      KeysCount(entries[1..]);
    }
  }

  /** The two caches of a device hold the same peers in the same order, after any history. */
  lemma {:induction false} InStep(history: seq<Exchange>, n: nat)
    ensures Keys(Cached(Received(history), n)) == Keys(Cached(Generated(history), n))
    decreases |history|
  {
    if history != [] {
      var init, last := history[..|history| - 1], history[|history| - 1];
      InStep(init, n);
      CachedSnoc(Received(init), Entry(last.key, last.received), n);
      CachedSnoc(Generated(init), Entry(last.key, last.generated), n);
      var a, b := Without(Cached(Received(init), n), last.key), Without(Cached(Generated(init), n), last.key);
      KeysWithout(Cached(Received(init), n), Cached(Generated(init), n), last.key);
      var a', b' := [Entry(last.key, last.received)] + a, [Entry(last.key, last.generated)] + b;
      assert a'[1..] == a && b'[1..] == b;
      KeysTake(a', b', n);
    }
  }

  // ---- Both devices -----------------------------------------------------------------------------

  /** One exchange: who asks whom, and the nonce each of them generates for it. */
  datatype Meeting = Meeting(client: string, server: string, clientNonce: bytes, serverNonce: bytes)

  /** The two points at which an exchange takes effect: the server handles the request, the client handles the reply. */
  datatype Event = Serve(meeting: Meeting) | Collect(meeting: Meeting)

  /** Any schedule of the network: replies overtake each other or get lost, but none comes without its request having
      been served before. */
  ghost predicate Possible(events: seq<Event>) {
    forall i :: 0 <= i < |events| && events[i].Collect? ==> exists j :: 0 <= j < i && events[j] == Serve(events[i].meeting)
  }

  /** Nonces are random, so no two exchanges share one. */
  ghost predicate FreshNonces(events: seq<Event>) {
    forall i, j :: 0 <= i < j < |events| && events[i].Serve? && events[j].Serve? ==>
      && events[i].meeting.clientNonce != events[j].meeting.clientNonce
      && events[i].meeting.serverNonce != events[j].meeting.serverNonce
  }

  function AtServer(events: seq<Event>, server: string): seq<Exchange> {
    if events == [] then []
    else
      var last := events[|events| - 1];
      AtServer(events[..|events| - 1], server)
      + (if last.Serve? && last.meeting.server == server
         then [Exchange(last.meeting.client, last.meeting.clientNonce, last.meeting.serverNonce)]
         else [])
  }

  function AtClient(events: seq<Event>, client: string): seq<Exchange> {
    if events == [] then []
    else
      var last := events[|events| - 1];
      AtClient(events[..|events| - 1], client)
      + (if last.Collect? && last.meeting.client == client
         then [Exchange(last.meeting.server, last.meeting.serverNonce, last.meeting.clientNonce)]
         else [])
  }

  predicate Between(m: Meeting, client: string, server: string) {
    m.client == client && m.server == server
  }

  /** The last exchange between the two that the server served. */
  function LastServed(events: seq<Event>, client: string, server: string): Option<Meeting> {
    if events == [] then None
    else
      var last := events[|events| - 1];
      if last.Serve? && Between(last.meeting, client, server) then Some(last.meeting)
      else LastServed(events[..|events| - 1], client, server)
  }

  /** The last exchange between the two whose reply the client took. */
  function LastTaken(events: seq<Event>, client: string, server: string): Option<Meeting> {
    if events == [] then None
    else
      var last := events[|events| - 1];
      if last.Collect? && Between(last.meeting, client, server) then Some(last.meeting)
      else LastTaken(events[..|events| - 1], client, server)
  }

  function LatestExchange(history: seq<Exchange>, key: string): Option<Exchange> {
    if history == [] then None
    else
      var last := history[|history| - 1];
      if last.key == key then Some(last) else LatestExchange(history[..|history| - 1], key)
  }

  lemma ExchangeSnoc(history: seq<Exchange>, last: Exchange, key: string)
    ensures LatestExchange(history + [last], key) == if last.key == key then Some(last) else LatestExchange(history, key)
  {
    assert (history + [last])[..|history|] == history;
  }

  lemma {:induction false} LatestOfExchange(history: seq<Exchange>, key: string)
    ensures match LatestExchange(history, key)
            case None => LatestNonce(Received(history), key) == None && LatestNonce(Generated(history), key) == None
            case Some(e) => LatestNonce(Received(history), key) == Some(e.received)
                            && LatestNonce(Generated(history), key) == Some(e.generated)
    decreases |history|
  {
    if history != [] {
      var init := history[..|history| - 1];
      LatestOfExchange(init, key);
      assert Received(history)[..|Received(init)|] == Received(init);
      assert Generated(history)[..|Generated(init)|] == Generated(init);
    }
  }

  /** The server's latest exchange with the client is the last one it served, the client's with the server the last one
      it took. */
  lemma {:induction false} LatestOfEvents(events: seq<Event>, client: string, server: string)
    ensures LatestExchange(AtServer(events, server), client) ==
            match LastServed(events, client, server)
            case None => None
            case Some(m) => Some(Exchange(client, m.clientNonce, m.serverNonce))
    ensures LatestExchange(AtClient(events, client), server) ==
            match LastTaken(events, client, server)
            case None => None
            case Some(m) => Some(Exchange(server, m.serverNonce, m.clientNonce))
    decreases |events|
  {
    if events != [] {
      var init, m := events[..|events| - 1], events[|events| - 1].meeting;
      LatestOfEvents(init, client, server);
      ExchangeSnoc(AtServer(init, server), Exchange(m.client, m.clientNonce, m.serverNonce), client);
      ExchangeSnoc(AtClient(init, client), Exchange(m.server, m.serverNonce, m.clientNonce), server);
      assert AtServer(init, server) + [] == AtServer(init, server) && AtClient(init, client) + [] == AtClient(init, client);
    }
  }

  lemma {:induction false} LastServedIn(events: seq<Event>, client: string, server: string)
    ensures match LastServed(events, client, server)
            case None => forall m :: Serve(m) in events ==> !Between(m, client, server)
            case Some(m) => Serve(m) in events && Between(m, client, server)
    decreases |events|
  {
    if events != [] {
      LastServedIn(events[..|events| - 1], client, server);
      assert events == events[..|events| - 1] + [events[|events| - 1]];
    }
  }

  lemma {:induction false} LastTakenIn(events: seq<Event>, client: string, server: string)
    ensures match LastTaken(events, client, server)
            case None => true
            case Some(m) => Collect(m) in events && Between(m, client, server)
    decreases |events|
  {
    if events != [] {
      LastTakenIn(events[..|events| - 1], client, server);
      assert events == events[..|events| - 1] + [events[|events| - 1]];
    }
  }

  /** Whoever took a reply to an exchange knows that it was served. */
  lemma TakenWasServed(events: seq<Event>, m: Meeting)
    requires Possible(events) && Collect(m) in events
    ensures Serve(m) in events
  {
    var i :| 0 <= i < |events| && events[i] == Collect(m);
    var j :| 0 <= j < i && events[j] == Serve(events[i].meeting);
  }

  lemma FreshMeetings(events: seq<Event>, a: Meeting, b: Meeting)
    requires FreshNonces(events) && Serve(a) in events && Serve(b) in events
    ensures a.clientNonce == b.clientNonce || a.serverNonce == b.serverNonce ==> a == b
  {
    var i :| 0 <= i < |events| && events[i] == Serve(a);
    var j :| 0 <= j < |events| && events[j] == Serve(b);
  }

  // What the two devices remember of each other after a schedule.

  function FromClient(events: seq<Event>, client: string, server: string): Option<bytes> {
    Lookup(Cached(Received(AtServer(events, server)), CAPACITY), client)
  }

  function ForClient(events: seq<Event>, client: string, server: string): Option<bytes> {
    Lookup(Cached(Generated(AtServer(events, server)), CAPACITY), client)
  }

  function FromServer(events: seq<Event>, client: string, server: string): Option<bytes> {
    Lookup(Cached(Received(AtClient(events, client)), CAPACITY), server)
  }

  function ForServer(events: seq<Event>, client: string, server: string): Option<bytes> {
    Lookup(Cached(Generated(AtClient(events, client)), CAPACITY), server)
  }

  /** The server still remembers the client, and the client the server. */
  predicate BothRemember(events: seq<Event>, client: string, server: string) {
    FromClient(events, client, server).Some? && FromServer(events, client, server).Some?
  }

  /** Each one's received nonce is the other's generated one. */
  predicate Mirror(events: seq<Event>, client: string, server: string) {
    && FromClient(events, client, server) == ForServer(events, client, server)
    && FromServer(events, client, server) == ForClient(events, client, server)
  }

  lemma RememberedMeetings(events: seq<Event>, client: string, server: string)
    requires BothRemember(events, client, server)
    ensures LastServed(events, client, server).Some? && LastTaken(events, client, server).Some?
    ensures var (served, taken) := (LastServed(events, client, server).value, LastTaken(events, client, server).value);
            && FromClient(events, client, server) == Some(served.clientNonce)
            && ForClient(events, client, server) == Some(served.serverNonce)
            && FromServer(events, client, server) == Some(taken.serverNonce)
            && ForServer(events, client, server) == Some(taken.clientNonce)
  {
    var atServer, atClient := AtServer(events, server), AtClient(events, client);
    RememberedWithin(Received(atServer), CAPACITY, client);
    RememberedWithin(Generated(atServer), CAPACITY, client);
    RememberedWithin(Received(atClient), CAPACITY, server);
    RememberedWithin(Generated(atClient), CAPACITY, server);
    SameLater(atServer, client);
    SameLater(atClient, server);
    LatestOfExchange(atServer, client);
    LatestOfExchange(atClient, server);
    LatestOfEvents(events, client, server);
  }

  lemma {:induction false} SameLater(history: seq<Exchange>, key: string)
    ensures Later(Received(history), key) == Later(Generated(history), key)
    decreases |history|
  {
    if history != [] {
      var init := history[..|history| - 1];
      SameLater(init, key);
      assert Received(history)[..|Received(init)|] == Received(init);
      assert Generated(history)[..|Generated(init)|] == Generated(init);
    }
  }

  /** After any schedule, and while the two devices remember each other, their nonces mirror each other exactly if the
      last exchange between them that was served is also the last one whose reply was taken. */
  lemma MirroredIff(events: seq<Event>, client: string, server: string)
    requires Possible(events) && FreshNonces(events) && BothRemember(events, client, server)
    ensures Mirror(events, client, server) <==> LastServed(events, client, server) == LastTaken(events, client, server)
  {
    hide FromClient, ForClient, FromServer, ForServer, BothRemember;
    RememberedMeetings(events, client, server);
    LastServedIn(events, client, server);
    LastTakenIn(events, client, server);
    var served, taken := LastServed(events, client, server).value, LastTaken(events, client, server).value;
    TakenWasServed(events, taken);
    FreshMeetings(events, served, taken);
  }

  /** The events that concern the two devices. */
  function EventsBetween(events: seq<Event>, client: string, server: string): seq<Event> {
    if events == [] then []
    else
      var last := events[|events| - 1];
      EventsBetween(events[..|events| - 1], client, server)
      + (if Between(last.meeting, client, server) then [last] else [])
  }

  lemma {:induction false} LastOfBetween(events: seq<Event>, client: string, server: string)
    ensures var own := EventsBetween(events, client, server);
            && LastServed(own, client, server) == LastServed(events, client, server)
            && LastTaken(own, client, server) == LastTaken(events, client, server)
    decreases |events|
  {
    if events != [] {
      var init, last := events[..|events| - 1], events[|events| - 1];
      LastOfBetween(init, client, server);
      var own := EventsBetween(init, client, server);
      assert (own + [last])[..|own|] == own && own + [] == own;
    }
  }

  /** An exchange that ran from its request to its reply without another one between the two devices in between leaves
      them mirrored, whatever came before it and whatever others do meanwhile. */
  lemma UndisturbedMirrors(events: seq<Event>, client: string, server: string, earlier: seq<Event>, m: Meeting)
    requires Possible(events) && FreshNonces(events) && BothRemember(events, client, server)
    requires Between(m, client, server) && EventsBetween(events, client, server) == earlier + [Serve(m), Collect(m)]
    ensures Mirror(events, client, server)
  {
    hide Mirror, BothRemember;
    LastOfBetween(events, client, server);
    var own := EventsBetween(events, client, server);
    assert own[..|own| - 1] == earlier + [Serve(m)];
    assert (earlier + [Serve(m)])[..|earlier|] == earlier;
    assert LastTaken(own, client, server) == Some(m);
    assert LastServed(own, client, server) == LastServed(earlier + [Serve(m)], client, server) == Some(m);
    MirroredIff(events, client, server);
  }

  function Overlap(a: Meeting, b: Meeting): seq<Event> {
    [Serve(a), Serve(b), Collect(b), Collect(a)]
  }

  /** Two exchanges that overlap so that the replies are taken in the opposite order: a possible schedule in which no
      message is lost, and after which the two devices remember each other by different nonces. */
  lemma OverlapBreaksMirror(client: string, server: string, a: Meeting, b: Meeting)
    requires Between(a, client, server) && Between(b, client, server)
    requires a.clientNonce != b.clientNonce && a.serverNonce != b.serverNonce
    ensures var events := Overlap(a, b);
            Possible(events) && FreshNonces(events) && BothRemember(events, client, server)
            && !Mirror(events, client, server)
  {
    var events := Overlap(a, b);
    assert events[0] == Serve(a) && events[1] == Serve(b);
    OverlapHistory(client, server, a, b);
    OverlapRemembered(client, server, a, b);
    hide FromClient, ForClient, FromServer, ForServer, AtServer, AtClient;
    MirroredIff(events, client, server);
  }

  lemma OverlapHistory(client: string, server: string, a: Meeting, b: Meeting)
    requires Between(a, client, server) && Between(b, client, server)
    ensures AtServer(Overlap(a, b), server) == [Exchange(client, a.clientNonce, a.serverNonce),
                                                Exchange(client, b.clientNonce, b.serverNonce)]
    ensures AtClient(Overlap(a, b), client) == [Exchange(server, b.serverNonce, b.clientNonce),
                                                Exchange(server, a.serverNonce, a.clientNonce)]
    ensures LastServed(Overlap(a, b), client, server) == Some(b) && LastTaken(Overlap(a, b), client, server) == Some(a)
  {
    var (e1, e2, e3) := ([Serve(a)], [Serve(a), Serve(b)], [Serve(a), Serve(b), Collect(b)]);
    assert [] + [Serve(a)] == e1 && e1 + [Serve(b)] == e2 && e2 + [Collect(b)] == e3 && e3 + [Collect(a)] == Overlap(a, b);
    EventSnoc([], Serve(a), client, server);
    EventSnoc(e1, Serve(b), client, server);
    EventSnoc(e2, Collect(b), client, server);
    EventSnoc(e3, Collect(a), client, server);
  }

  lemma EventSnoc(events: seq<Event>, last: Event, client: string, server: string)
    requires Between(last.meeting, client, server)
    ensures var (all, m) := (events + [last], last.meeting);
            && AtServer(all, server) == AtServer(events, server)
                 + (if last.Serve? then [Exchange(client, m.clientNonce, m.serverNonce)] else [])
            && AtClient(all, client) == AtClient(events, client)
                 + (if last.Collect? then [Exchange(server, m.serverNonce, m.clientNonce)] else [])
            && LastServed(all, client, server) == (if last.Serve? then Some(m) else LastServed(events, client, server))
            && LastTaken(all, client, server) == (if last.Collect? then Some(m) else LastTaken(events, client, server))
  {
    assert (events + [last])[..|events|] == events;
  }

  lemma OverlapRemembered(client: string, server: string, a: Meeting, b: Meeting)
    requires Between(a, client, server) && Between(b, client, server)
    ensures BothRemember(Overlap(a, b), client, server)
  {
    OverlapHistory(client, server, a, b);
    TwoRemembered(client, Exchange(client, a.clientNonce, a.serverNonce), Exchange(client, b.clientNonce, b.serverNonce));
    TwoRemembered(server, Exchange(server, b.serverNonce, b.clientNonce), Exchange(server, a.serverNonce, a.clientNonce));
  }

  lemma TwoRemembered(key: string, first: Exchange, second: Exchange)
    requires second.key == key
    ensures Lookup(Cached(Received([first, second]), CAPACITY), key) == Some(second.received)
  {
    var history := [first, second];
    assert history[..1] == [first];
    assert Received(history)[..1] == Received([first]);
    RememberedWithin(Received(history), CAPACITY, key);
  }
}
