/**
 * A client stub and a dispatch shim wired back to back, the way a
 * connected pair is driven: the stub's Calls are fed to the shim and the
 * shim's Responses to the stub.
 */
module Scenario {
  import opened ProtocolTypes
  import opened RemoteStub
  import opened DispatchShim

  /**
   * The example service `test(&self, number: u64) -> Future<TestStruct, ()>`
   * and `sec_test(&self)`. Calling `test(arg)` on a fresh stub queues
   * exactly `test(arg, 0)`; a shim whose implementation answers with the
   * single item `x` yields exactly `test(x, 0, 0)`; handing that back to
   * the stub delivers `x`, and only `x`, to the pending value of the call.
   */
  method CallAndReply<V>(arg: V, x: V) returns (id: u64, sent: Option<Call<V>>, reply: Option<Response<V>>, delivered: seq<V>)
    ensures id == 0
    ensures sent == Some(Method(0, [arg], id))
    ensures reply == Some(Response(0, x, 0, id))
    ensures delivered == [x]
  {
    var iface := [Procedure(["u64"], false, "test", "Future<TestStruct, ()>"), Procedure([], false, "sec_test", UNIT_TYPE)];
    var remote := new ConcreteRemote<V>(iface);
    id := remote.Invoke(0, [arg]);
    sent := remote.Poll();
    var shim := new ProtocolShim<V>(iface);
    shim.StartSend(sent.value, [x]);
    assert shim.streams[0].pending != [];
    reply := shim.Poll();
    remote.StartSend(reply.value);
    delivered := remote.channels[id].received;
  }
}
