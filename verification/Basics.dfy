/** Types shared by every component: octets, optional values and the in-process channels. */
module Basics {

  type byte = b: int | 0 <= b < 0x100

  type bytes = seq<byte>

  newtype u8 = v: int | 0 <= v < 0x100

  newtype u16 = v: int | 0 <= v < 0x1_0000

  newtype u64 = v: int | 0 <= v < 0x1_0000_0000_0000_0000

  datatype Option<+T> = None | Some(value: T)

  function Concat<T>(parts: seq<seq<T>>): seq<T> {
    if parts == [] then [] else parts[0] + Concat(parts[1..])
  }

  lemma {:induction false} ConcatAppend<T>(a: seq<seq<T>>, b: seq<seq<T>>)
    ensures Concat(a + b) == Concat(a) + Concat(b)
  {
    if a == [] {
      assert a + b == b;
    } else {
      ConcatAppend(a[1..], b);
      assert (a + b)[1..] == a[1..] + b;
      assert (a + b)[0] == a[0];
    }
  }

  lemma ConcatSnoc<T>(a: seq<seq<T>>, last: seq<T>)
    ensures Concat(a + [last]) == Concat(a) + last
  {
    ConcatAppend(a, [last]);
    assert Concat([last]) == last + Concat<T>([]);
  }

  /** The receiving end of a queue: `Recv` yields the oldest item, or `None` once the queue is closed. */
  class Receiver<T> {
    var items: seq<T>

    constructor (items: seq<T>)
      ensures this.items == items
    {
      this.items := items;
    }

    method Recv() returns (item: Option<T>)
      modifies this
      ensures old(items) == [] ==> item.None? && items == []
      ensures old(items) != [] ==> item == Some(old(items)[0]) && items == old(items)[1..]
    {
      if items == [] {
        item := None;
      } else {
        item := Some(items[0]);
        items := items[1..];
      }
    }
  }

  /** The sending end of a queue which starts to fail once `limit` items were accepted. */
  class Sender<T> {
    var sent: seq<T>
    const limit: Option<nat>

    constructor (limit: Option<nat>)
      ensures sent == [] && this.limit == limit
    {
      this.limit := limit;
      sent := [];
    }

    predicate Accepts(n: nat) {
      limit.None? || n <= limit.value
    }

    method Send(item: T) returns (ok: bool)
      modifies this
      ensures ok == Accepts(|old(sent)| + 1)
      ensures sent == if ok then old(sent) + [item] else old(sent)
    {
      ok := limit.None? || |sent| + 1 <= limit.value;
      if ok {
        sent := sent + [item];
      }
    }
  }

  method SendAll<T>(items: seq<T>, tx: Sender<T>)
    requires tx.limit.None?
    modifies tx
    ensures tx.sent == old(tx.sent) + items
  {
    for i := 0 to |items|
      invariant tx.sent == old(tx.sent) + items[..i]
    {
      var ok := tx.Send(items[i]);
      assert items[..i + 1] == items[..i] + [items[i]];
    }
    assert items[..|items|] == items;
  }
}
