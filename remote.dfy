/**
 * The client stub (`Concrete_Remote`): it turns interface calls into queued
 * Calls, hands them to the transport in order, and routes incoming
 * Responses to the sub-channel registered for their call id.
 *
 * The shared cells of the source (locks, the atomic counter, the wake-up
 * task) become plain fields updated one call at a time.
 */
module RemoteStub {
  import opened ProtocolTypes

  /**
   * The sub-channel registered under a call id: the variant of the method
   * it belongs to, and the data routed to it so far.
   */
  datatype Channel<V> = Channel(variant: u64, received: seq<V>)

  /** The outcome of one identifier allocation. */
  datatype Allocation = Allocation(id: u64, pool: seq<u64>, lastId: u64)

  /**
   * `next_id`: the most recently pushed id of the free pool when there is
   * one, otherwise the counter's value, with the counter advanced by one
   * (wrapping at 2^64 like `fetch_add` on an `AtomicU64`).
   */
  function Allocate(pool: seq<u64>, lastId: u64): (a: Allocation)
    ensures pool != [] ==> a == Allocation(pool[|pool| - 1], pool[..|pool| - 1], lastId)
    ensures pool == [] ==> a.id == lastId && a.pool == [] && a.lastId == (lastId + 1) % TWO_64
  {
    if pool != [] then Allocation(pool[|pool| - 1], pool[..|pool| - 1], lastId)
    else Allocation(lastId, [], (lastId + 1) % TWO_64)
  }

  /** The ids handed out by `n` allocations in a row. */
  function AllocateMany(pool: seq<u64>, lastId: u64, n: nat): (ids: seq<u64>)
    ensures |ids| == n
    decreases n
  {
    if n == 0 then []
    else var a := Allocate(pool, lastId); [a.id] + AllocateMany(a.pool, a.lastId, n - 1)
  }

  function Reverse<T>(s: seq<T>): (r: seq<T>)
    ensures |r| == |s|
    ensures forall i :: 0 <= i < |s| ==> r[i] == s[|s| - 1 - i]
  {
    if s == [] then [] else [s[|s| - 1]] + Reverse(s[..|s| - 1])
  }

  /** The free pool is a stack: draining it hands its ids out last-pushed first. */
  lemma {:induction false} AllocateDrainsPoolLifo(pool: seq<u64>, lastId: u64)
    ensures AllocateMany(pool, lastId, |pool|) == Reverse(pool)
    decreases |pool|
  {
    if pool != [] {
      AllocateDrainsPoolLifo(pool[..|pool| - 1], lastId);
    }
  }

  /**
   * With an empty pool the counter hands out consecutive ids from its
   * current value, modulo 2^64.
   */
  lemma {:induction false} AllocateFromCounter(lastId: u64, n: nat)
    ensures forall i :: 0 <= i < n ==> AllocateMany([], lastId, n)[i] == (lastId + i) % TWO_64
    decreases n
  {
    if n > 0 {
      var next := (lastId + 1) % TWO_64;
      AllocateFromCounter(next, n - 1);
      var rest := AllocateMany([], next, n - 1);
      forall i | 1 <= i < n
        ensures AllocateMany([], lastId, n)[i] == (lastId + i) % TWO_64
      {
        assert AllocateMany([], lastId, n)[i] == rest[i - 1];
        ModAddOne(lastId, i - 1);
      }
    }
  }

  lemma ModAddOne(x: int, j: nat)
    requires 0 <= x
    ensures ((x + 1) % TWO_64 + j) % TWO_64 == (x + j + 1) % TWO_64
  {
  }

  /**
   * Identifier uniqueness: as long as the counter has not wrapped (at most
   * 2^64 allocations from an empty pool), no id is handed out twice.
   */
  lemma AllocatedIdsDistinct(lastId: u64, n: nat)
    requires n <= TWO_64
    ensures forall i, j :: 0 <= i < j < n ==> AllocateMany([], lastId, n)[i] != AllocateMany([], lastId, n)[j]
  {
    AllocateFromCounter(lastId, n);
    var s := AllocateMany([], lastId, n);
    forall i, j | 0 <= i < j < n
      ensures s[i] != s[j]
    {
      ModDistinct(lastId + i, j - i);
    }
  }

  lemma ModDistinct(x: int, d: int)
    requires 0 <= x && 0 < d < TWO_64
    ensures x % TWO_64 != (x + d) % TWO_64
  {
  }

  class ConcreteRemote<V> {
    const iface: Interface
    /** Calls waiting for the transport, oldest first. */
    var queue: seq<Call<V>>
    /** The free-id pool; its last element is the next one handed out. */
    var ids: seq<u64>
    var lastId: u64
    var channels: map<u64, Channel<V>>
    /** The number of calls made so far. */
    ghost var calls: nat

    /**
     * Every queued Call and every registered channel belongs to the
     * interface; no id is ever returned to the pool, so every id comes from
     * the counter, and until the counter wraps every registered id is one
     * it has already passed.
     */
    ghost predicate Valid()
      reads this
    {
      && (forall i :: 0 <= i < |queue| ==> WellFormedCall(iface, queue[i]))
      && (forall id :: id in channels ==> channels[id].variant < |iface|)
      && ids == []
      && lastId == calls % TWO_64
      && (calls < TWO_64 ==> forall id :: id in channels ==> id < calls)
    }

    /** `new`: nothing queued, an empty pool, the counter at zero, no channels. */
    constructor (iface: Interface)
      ensures this.iface == iface && Valid()
      ensures queue == [] && ids == [] && lastId == 0 && channels == map[] && calls == 0
    {
      this.iface := iface;
      calls := 0;
      queue := [];
      ids := [];
      lastId := 0;
      channels := map[];
    }

    method NextId() returns (id: u64)
      modifies this`ids, this`lastId
      ensures Allocation(id, ids, lastId) == Allocate(old(ids), old(lastId))
    {
      if ids != [] {
        id := ids[|ids| - 1];
        ids := ids[..|ids| - 1];
      } else {
        id := lastId;
        lastId := (lastId + 1) % TWO_64;
      }
    }

    /**
     * Calling method `k` with `args`: allocates an id, registers a fresh
     * channel of variant `k` under it and queues `k(args, id)` at the back.
     * The returned id stands for the pending value the source hands back,
     * which is fed by that channel. Until 2^64 calls have been made, the id
     * is the number of earlier calls, no live call holds it and no channel
     * is overwritten.
     */
    method Invoke(k: u64, args: seq<V>) returns (id: u64)
      requires Valid()
      requires k < |iface| && |args| == |iface[k].argTypes|
      modifies this
      ensures Valid() && calls == old(calls) + 1
      ensures Allocation(id, ids, lastId) == Allocate(old(ids), old(lastId))
      ensures channels == old(channels)[id := Channel(k, [])]
      ensures channels.Keys == old(channels).Keys + {id}
      ensures old(calls) < TWO_64 ==> id == old(calls) && id !in old(channels)
      ensures queue == old(queue) + [Method(k, args, id)]
    {
      id := NextId();
      calls := calls + 1;
      channels := channels[id := Channel(k, [])];
      queue := queue + [Method(k, args, id)];
    }

    /** `poll` as a stream of Calls: the oldest queued Call, or not ready when none is queued. */
    method Poll() returns (r: Option<Call<V>>)
      requires Valid()
      modifies this`queue
      ensures Valid()
      ensures old(queue) == [] ==> r == None && queue == []
      ensures old(queue) != [] ==> r == Some(old(queue)[0]) && queue == old(queue)[1..]
      ensures r.Some? ==> WellFormedCall(iface, r.value)
    {
      if queue == [] {
        r := None;
      } else {
        r := Some(queue[0]);
        queue := queue[1..];
      }
    }

    /**
     * `start_send` as a sink of Responses: the data goes to the channel
     * registered under the Response's call id when that channel belongs to
     * the Response's method; otherwise the Response is dropped. It never
     * fails, never adds or removes a channel and leaves every other channel
     * as it was.
     */
    method StartSend(r: Response<V>)
      requires Valid()
      modifies this`channels
      ensures Valid()
      ensures channels == Route(old(channels), r)
      ensures channels.Keys == old(channels).Keys
      ensures forall id :: id in channels && id != r.id ==> channels[id] == old(channels)[id]
    {
      if r.id in channels && channels[r.id].variant == r.variant {
        var ch := channels[r.id];
        channels := channels[r.id := ch.(received := ch.received + [r.data])];
      }
    }
  }

  /** A Response is routed when a channel of its method is registered under its call id. */
  predicate Routes<V>(channels: map<u64, Channel<V>>, r: Response<V>)
  {
    r.id in channels && channels[r.id].variant == r.variant
  }

  /**
   * The channels after one Response has been handled: no channel is added
   * or removed, none changes its method, and only the one registered under
   * the Response's call id can receive anything.
   */
  function Route<V>(channels: map<u64, Channel<V>>, r: Response<V>): (routed: map<u64, Channel<V>>)
    ensures routed.Keys == channels.Keys
    ensures forall id :: id in channels ==> routed[id].variant == channels[id].variant
    ensures forall id :: id in channels && id != r.id ==> routed[id] == channels[id]
  {
    if Routes(channels, r) then
      channels[r.id := channels[r.id].(received := channels[r.id].received + [r.data])]
    else channels
  }

  /**
   * The channels after a run of Responses has been handled, in order: the
   * same channels, each still of its method, and a channel no Response
   * addresses is left as it was.
   */
  function RouteAll<V>(channels: map<u64, Channel<V>>, rs: seq<Response<V>>): (routed: map<u64, Channel<V>>)
    ensures routed.Keys == channels.Keys
    ensures forall id :: id in channels ==> routed[id].variant == channels[id].variant
    ensures forall id :: id in channels && (forall i :: 0 <= i < |rs| ==> rs[i].id != id) ==> routed[id] == channels[id]
  {
    if rs == [] then channels else RouteAll(Route(channels, rs[0]), rs[1..])
  }

  /** The data of the Responses addressed to call `id` and method `variant`, in arrival order. */
  function DataFor<V>(rs: seq<Response<V>>, id: u64, variant: u64): seq<V>
  {
    if rs == [] then []
    else
      var head := if rs[0].id == id && rs[0].variant == variant then [rs[0].data] else [];
      head + DataFor(rs[1..], id, variant)
  }

  /**
   * Routing isolation and per-call ordering: after any run of Responses,
   * every registered channel holds what it held before followed by exactly
   * the data of the Responses addressed to its call id and its method, in
   * the order they arrived; no channel is added or removed.
   */
  lemma {:induction false} RouteAllDelivers<V>(channels: map<u64, Channel<V>>, rs: seq<Response<V>>)
    ensures RouteAll(channels, rs).Keys == channels.Keys
    ensures forall id :: id in channels ==>
      RouteAll(channels, rs)[id] ==
        Channel(channels[id].variant, channels[id].received + DataFor(rs, id, channels[id].variant))
  {
    if rs != [] {
      var next := Route(channels, rs[0]);
      RouteAllDelivers(next, rs[1..]);
      forall id | id in channels
        ensures RouteAll(channels, rs)[id] ==
          Channel(channels[id].variant, channels[id].received + DataFor(rs, id, channels[id].variant))
      {
        var ch := channels[id];
        assert next[id].variant == ch.variant;
        if rs[0].id == id && rs[0].variant == ch.variant {
          assert next[id].received == ch.received + [rs[0].data];
          assert DataFor(rs, id, ch.variant) == [rs[0].data] + DataFor(rs[1..], id, ch.variant);
          assert ch.received + [rs[0].data] + DataFor(rs[1..], id, ch.variant)
            == ch.received + DataFor(rs, id, ch.variant);
        } else {
          assert next[id] == ch;
          assert DataFor(rs, id, ch.variant) == DataFor(rs[1..], id, ch.variant);
        }
      }
    }
  }
}
