/**
 * The dispatch shim (`Protocol_Shim`): a sink of Calls and a source of
 * Responses wrapped around a local implementation of the interface.
 *
 * For each method Call the source invokes the implementation, decomposes
 * the returned value into a stream of items and merges that stream,
 * every item tagged with the method index and the call id, into one
 * outgoing Response stream. Invoking the implementation and decomposing
 * its value happen outside this model: the items they produce are the
 * `output` parameter of `StartSend`. The merge (`select`) is modelled as
 * the list of per-call streams still holding items, from which `Poll` may
 * take the next item of any stream that has one.
 */
module DispatchShim {
  import opened ProtocolTypes

  /** One per-call output stream: the method, the call id and the items not yet yielded. */
  datatype CallStream<V> = CallStream(variant: u64, id: u64, pending: seq<V>)

  /**
   * The Responses a call's output stream turns into: item `i` becomes
   * `k(items[i], k, id)`, the middle field holding the method index.
   */
  function Tagged<V>(k: u64, id: u64, items: seq<V>): (rs: seq<Response<V>>)
    ensures |rs| == |items|
    ensures forall i :: 0 <= i < |items| ==> rs[i] == Response(k, items[i], k, id)
  {
    if items == [] then [] else [Response(k, items[0], k, id)] + Tagged(k, id, items[1..])
  }

  /**
   * The Response a stream yields next: it is tagged with the stream's
   * method index, both as its variant and as its fragment index, and with
   * the stream's call id.
   */
  function Head<V>(s: CallStream<V>): (h: Response<V>)
    requires s.pending != []
    ensures h.variant == h.idx == s.variant && h.id == s.id
  {
    Response(s.variant, s.pending[0], s.variant, s.id)
  }

  predicate AllDrained<V>(streams: seq<CallStream<V>>)
  {
    forall j :: 0 <= j < |streams| ==> streams[j].pending == []
  }

  class ProtocolShim<V> {
    const iface: Interface
    /** The merged per-call streams, the most recent call first. */
    var streams: seq<CallStream<V>>

    ghost predicate Valid()
      reads this
    {
      forall j :: 0 <= j < |streams| ==> streams[j].variant < |iface|
    }

    /** The Responses still to be yielded, per call. */
    ghost function Outstanding(): seq<seq<Response<V>>>
      reads this
    {
      seq(|streams|, j requires 0 <= j < |streams| reads this =>
        Tagged(streams[j].variant, streams[j].id, streams[j].pending))
    }

    /** `new`: the merged stream starts as a stream that is never ready. */
    constructor (iface: Interface)
      ensures this.iface == iface && Valid() && streams == []
    {
      this.iface := iface;
      streams := [];
    }

    /**
     * `start_send`: a method Call `k(args, id)` adds a stream of its
     * output, tagged with `k` and `id`, in front of the streams already in
     * flight, which are all kept; a relay Call changes nothing.
     */
    method StartSend(c: Call<V>, output: seq<V>)
      requires Valid() && WellFormedCall(iface, c)
      modifies this
      ensures Valid()
      ensures c.Method? ==> streams == [CallStream(c.index, c.id, output)] + old(streams)
      ensures c.Method? ==> Outstanding() == [Tagged(c.index, c.id, output)] + old(Outstanding())
      ensures c.Relay? ==> streams == old(streams)
    {
      match c
      case Method(k, _, id) =>
        streams := [CallStream(k, id, output)] + streams;
        assert Outstanding()[1..] == old(Outstanding());
      case Relay(_) =>
    }

    /**
     * `poll` of the merged stream: not ready when no stream holds an item;
     * otherwise the next item of some stream that holds one, tagged as
     * that stream's Response, and that stream advances by one item. No
     * fairness between streams is promised.
     */
    method Poll() returns (r: Option<Response<V>>)
      requires Valid()
      modifies this
      ensures Valid()
      ensures r.None? <==> AllDrained(old(streams))
      ensures r.None? ==> streams == old(streams)
      ensures r.Some? ==> r.value.idx == r.value.variant && r.value.variant < |iface|
      ensures r.Some? ==> exists j ::
        && 0 <= j < |old(streams)| && old(streams)[j].pending != []
        && r.value == Head(old(streams)[j])
        && streams == old(streams)[j := old(streams)[j].(pending := old(streams)[j].pending[1..])]
    {
      if j :| 0 <= j < |streams| && streams[j].pending != [] {
        var s := streams[j];
        r := Some(Head(s));
        streams := streams[j := s.(pending := s.pending[1..])];
      } else {
        r := None;
      }
    }
  }

  /**
   * Yielding the head of a stream takes the first Response that call still
   * owes and leaves the rest of its Responses in order.
   */
  lemma {:induction false} HeadIsFirstTagged<V>(s: CallStream<V>)
    requires s.pending != []
    ensures Tagged(s.variant, s.id, s.pending)[0] == Head(s)
    ensures Tagged(s.variant, s.id, s.pending)[1..] == Tagged(s.variant, s.id, s.pending[1..])
  {
    var rs := Tagged(s.variant, s.id, s.pending);
    var rest := Tagged(s.variant, s.id, s.pending[1..]);
    assert |rs[1..]| == |rest|;
    forall i | 0 <= i < |rest| ensures rs[1..][i] == rest[i] {
      assert rs[1..][i] == rs[i + 1];
    }
  }
}
