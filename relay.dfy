/** Two instances of the contract on two chains, joined by one channel, and
    a relayer that moves a packet and its acknowledgement between them one
    step at a time. The steps a real relayer and chain take concurrently are
    taken here in the order the protocol forces: send, receive on the peer,
    acknowledge on the sender, then the sender's chain runs the messages the
    acknowledgement handler emitted. */
module Relay {
  import opened Wrappers
  import opened Binary
  import opened CosmWasm
  import opened Msg
  import opened Acknowledgement
  import opened Store
  import opened Ibc
  import opened Contract

  const RELAYER: string := "relayer"

  /** The port a wasm contract binds: `wasm.` followed by its address. */
  function PortOf(c: Contract): string
    reads c
  {
    "wasm." + c.address
  }

  /** The chain runs the messages of a response in order. Each callback
      message is routed to the contract it names, decoded, and executed. */
  method DispatchCallbacks(c: Contract, env: Env, msgs: seq<CosmosMsg>)
    requires c.Valid()
    requires forall i :: 0 <= i < |msgs| ==>
      && msgs[i].Wasm?
      && msgs[i].wasm.contractAddr == c.address
      && DecodeExecuteMsg(msgs[i].wasm.msg) == Success(FirstIncrementCallback)
    requires Load(c.counts, CALLBACK_COUNTER) + |msgs| <= U32_MAX
    modifies c
    ensures c.Valid()
    ensures c.counts - {CALLBACK_COUNTER} == old(c.counts) - {CALLBACK_COUNTER}
    ensures Load(c.counts, CALLBACK_COUNTER) == Load(old(c.counts), CALLBACK_COUNTER) + |msgs|
    ensures msgs == [] ==> c.counts == old(c.counts)
  {
    var i := 0;
    while i < |msgs|
      invariant 0 <= i <= |msgs|
      invariant c.Valid()
      invariant c.counts - {CALLBACK_COUNTER} == old(c.counts) - {CALLBACK_COUNTER}
      invariant Load(c.counts, CALLBACK_COUNTER) == Load(old(c.counts), CALLBACK_COUNTER) + i
      invariant i == 0 ==> c.counts == old(c.counts)
    {
      var call := msgs[i].wasm;
      var decoded := DecodeExecuteMsg(call.msg);
      var _ := c.Execute(env, MessageInfo(c.address, call.funds), decoded.value);
      i := i + 1;
    }
  }

  /** The sending half: a user's `Increment { channel, callback }` on
      `origin` leaves the origin's store untouched, and the relayer delivers
      the packet to `dest`, which counts one more under `destChannel` and
      acknowledges that count and the flag. */
  method SendAndDeliver(
    origin: Contract, dest: Contract, originEnv: Env, destEnv: Env, user: MessageInfo,
    channel: string, destChannel: string, callback: bool, sequence: nat)
    returns (packet: IbcPacket, ack: Bytes)
    requires origin != dest
    requires origin.Valid() && dest.Valid()
    requires Load(dest.counts, destChannel) < U32_MAX
    modifies origin, dest
    ensures origin.Valid() && dest.Valid()
    ensures origin.counts == old(origin.counts)
    ensures dest.counts == Incremented(old(dest.counts), destChannel)
    ensures InterpretAck(ack)
            == Success(Succeeded(IncrementMsgAcknowledgement(Load(dest.counts, destChannel), callback)))
  {
    var sent := origin.Execute(originEnv, user, Increment(channel, callback));
    var send := sent.value.messages[0].ibc;
    packet := IbcPacket(
      send.data,
      IbcEndpoint(PortOf(origin), send.channelId),
      IbcEndpoint(PortOf(dest), destChannel),
      sequence,
      send.timeout);
    var received := dest.PacketReceive(destEnv, IbcPacketReceiveMsg(packet, RELAYER));
    ack := received.ack.value;
  }

  /** The returning half: the relayer hands a success acknowledgement back to
      `origin`, whose chain then runs the messages the handler emitted. */
  method AcknowledgeAndDispatch(
    origin: Contract, originEnv: Env, packet: IbcPacket, ack: Bytes, count: nat, callback: bool)
    requires origin.Valid()
    requires originEnv.contractAddress == origin.address
    requires InterpretAck(ack) == Success(Succeeded(IncrementMsgAcknowledgement(count, callback)))
    requires callback ==> Load(origin.counts, CALLBACK_COUNTER) + 2 <= U32_MAX
    modifies origin
    ensures origin.Valid()
    ensures origin.counts - {CALLBACK_COUNTER} == old(origin.counts) - {CALLBACK_COUNTER}
    ensures Load(origin.counts, CALLBACK_COUNTER)
            == Load(old(origin.counts), CALLBACK_COUNTER) + (if callback then 2 else 0)
    ensures !callback ==> origin.counts == old(origin.counts)
  {
    var acked := origin.PacketAck(originEnv, IbcPacketAckMsg(IbcAcknowledgement(ack), packet, RELAYER));
    DispatchCallbacks(origin, originEnv, acked.value.messages);
  }

  /** One full round trip of `Increment { channel, callback }` sent by a user
      to `origin`: the peer counts one more under its end of the channel and
      acknowledges that count; with the flag set, the origin's
      `callback_counter` ends two higher (once in the acknowledgement handler,
      once by the callback message), and without it nothing changes there. */
  method RelayIncrement(
    origin: Contract, dest: Contract, originEnv: Env, destEnv: Env, user: MessageInfo,
    channel: string, destChannel: string, callback: bool, sequence: nat)
    returns (ack: Bytes)
    requires origin != dest
    requires origin.Valid() && dest.Valid()
    requires originEnv.contractAddress == origin.address
    requires Load(dest.counts, destChannel) < U32_MAX
    requires callback ==> Load(origin.counts, CALLBACK_COUNTER) + 2 <= U32_MAX
    modifies origin, dest
    ensures origin.Valid() && dest.Valid()
    ensures dest.counts == Incremented(old(dest.counts), destChannel)
    ensures InterpretAck(ack)
            == Success(Succeeded(IncrementMsgAcknowledgement(Load(dest.counts, destChannel), callback)))
    ensures origin.counts - {CALLBACK_COUNTER} == old(origin.counts) - {CALLBACK_COUNTER}
    ensures Load(origin.counts, CALLBACK_COUNTER)
            == Load(old(origin.counts), CALLBACK_COUNTER) + (if callback then 2 else 0)
    ensures !callback ==> origin.counts == old(origin.counts)
  {
    var packet;
    packet, ack := SendAndDeliver(origin, dest, originEnv, destEnv, user, channel, destChannel, callback, sequence);
    AcknowledgeAndDispatch(origin, originEnv, packet, ack, Load(dest.counts, destChannel), callback);
  }

  /** The number of round trips in `flags` that ask for the callback. */
  function Flagged(flags: seq<bool>): (n: nat)
    ensures n <= |flags|
  {
    if flags == [] then 0 else (if flags[0] then 1 else 0) + Flagged(flags[1..])
  }

  /** Counting the flagged round trips of two runs one after the other. */
  lemma {:induction false} FlaggedAppend(a: seq<bool>, b: seq<bool>)
    ensures Flagged(a + b) == Flagged(a) + Flagged(b)
  {
    if a == [] {
      assert a + b == b;
    } else {
      assert (a + b)[1..] == a[1..] + b;
      FlaggedAppend(a[1..], b);
    }
  }

  /** A run of round trips, one per flag, all sent by `user` to `origin` on
      `channel`. After it, the peer has counted exactly one packet per round
      trip under `destChannel`, whatever the flags, and the origin's
      `callback_counter` has risen by two per flagged round trip. No other key
      changes on either side. */
  method RelayAll(
    origin: Contract, dest: Contract, originEnv: Env, destEnv: Env, user: MessageInfo,
    channel: string, destChannel: string, flags: seq<bool>)
    requires origin != dest
    requires origin.Valid() && dest.Valid()
    requires originEnv.contractAddress == origin.address
    requires Load(dest.counts, destChannel) + |flags| <= U32_MAX
    requires Load(origin.counts, CALLBACK_COUNTER) + 2 * Flagged(flags) <= U32_MAX
    modifies origin, dest
    ensures origin.Valid() && dest.Valid()
    ensures Load(dest.counts, destChannel) == Load(old(dest.counts), destChannel) + |flags|
    ensures dest.counts - {destChannel} == old(dest.counts) - {destChannel}
    ensures Load(origin.counts, CALLBACK_COUNTER)
            == Load(old(origin.counts), CALLBACK_COUNTER) + 2 * Flagged(flags)
    ensures origin.counts - {CALLBACK_COUNTER} == old(origin.counts) - {CALLBACK_COUNTER}
    ensures Flagged(flags) == 0 ==> origin.counts == old(origin.counts)
    ensures flags == [] ==> dest.counts == old(dest.counts)
  {
    var i := 0;
    while i < |flags|
      invariant 0 <= i <= |flags|
      invariant origin.Valid() && dest.Valid()
      invariant Load(dest.counts, destChannel) == Load(old(dest.counts), destChannel) + i
      invariant dest.counts - {destChannel} == old(dest.counts) - {destChannel}
      invariant Load(origin.counts, CALLBACK_COUNTER)
                == Load(old(origin.counts), CALLBACK_COUNTER) + 2 * Flagged(flags[..i])
      invariant origin.counts - {CALLBACK_COUNTER} == old(origin.counts) - {CALLBACK_COUNTER}
      invariant Flagged(flags[..i]) == 0 ==> origin.counts == old(origin.counts)
      invariant i == 0 ==> dest.counts == old(dest.counts)
    {
      assert flags[..i + 1] == flags[..i] + [flags[i]];
      FlaggedAppend(flags[..i], [flags[i]]);
      assert flags == flags[..i + 1] + flags[i + 1..];
      FlaggedAppend(flags[..i + 1], flags[i + 1..]);
      var _ := RelayIncrement(origin, dest, originEnv, destEnv, user, channel, destChannel, flags[i], i + 1);
      i := i + 1;
    }
    assert flags[..i] == flags;
  }

  /** The end-to-end run of the repository's integration test: two fresh
      instances, one unordered channel, and `Increment` with the flag set
      relayed twice. The sender's `callback_counter` reads 2 after the
      first round trip and 4 after the second. */
  method TwoCallbackRoundTrips() returns (first: nat, second: nat)
    ensures first == 2 && second == 4
  {
    var wasm := new Contract("wasm-contract");
    var osmo := new Contract("osmo-contract");
    var wasmEnv := Env(Timestamp(1_000_000_000), wasm.address);
    var osmoEnv := Env(Timestamp(1_000_000_000), osmo.address);
    var _ := wasm.Instantiate(wasmEnv, MessageInfo("deployer", []), InstantiateMsg);
    var _ := osmo.Instantiate(osmoEnv, MessageInfo("deployer", []), InstantiateMsg);

    var wasmEnd := IbcEndpoint(PortOf(wasm), "channel-0");
    var osmoEnd := IbcEndpoint(PortOf(osmo), "channel-0");
    var _ := wasm.ChannelConnect(wasmEnv,
      OpenAck(IbcChannel(wasmEnd, osmoEnd, Unordered, IBC_VERSION, "connection-0"), IBC_VERSION));
    var _ := osmo.ChannelConnect(osmoEnv,
      OpenConfirm(IbcChannel(osmoEnd, wasmEnd, Unordered, IBC_VERSION, "connection-0")));

    var user := MessageInfo("user", []);
    var query := GetCount(CALLBACK_COUNTER);

    var _ := RelayIncrement(wasm, osmo, wasmEnv, osmoEnv, user, "channel-0", "channel-0", true, 1);
    var reply := wasm.Query(wasmEnv, query);
    first := DecodeGetCountResponse(reply.value).value.count;

    var _ := RelayIncrement(wasm, osmo, wasmEnv, osmoEnv, user, "channel-0", "channel-0", true, 2);
    reply := wasm.Query(wasmEnv, query);
    second := DecodeGetCountResponse(reply.value).value.count;
  }

  /** Without the flag, a full round trip still counts the packet on the
      peer's channel but leaves the sender's `callback_counter` at 0. */
  method RoundTripWithoutCallback() returns (callbacks: nat, received: nat)
    ensures callbacks == 0 && received == 1
  {
    var wasm := new Contract("wasm-contract");
    var osmo := new Contract("osmo-contract");
    var wasmEnv := Env(Timestamp(1_000_000_000), wasm.address);
    var osmoEnv := Env(Timestamp(1_000_000_000), osmo.address);

    var wasmEnd := IbcEndpoint(PortOf(wasm), "channel-0");
    var osmoEnd := IbcEndpoint(PortOf(osmo), "channel-0");
    var _ := wasm.ChannelConnect(wasmEnv,
      OpenAck(IbcChannel(wasmEnd, osmoEnd, Unordered, IBC_VERSION, "connection-0"), IBC_VERSION));
    var _ := osmo.ChannelConnect(osmoEnv,
      OpenConfirm(IbcChannel(osmoEnd, wasmEnd, Unordered, IBC_VERSION, "connection-0")));

    var _ := RelayIncrement(wasm, osmo, wasmEnv, osmoEnv, MessageInfo("user", []),
                            "channel-0", "channel-0", false, 1);
    var reply := wasm.Query(wasmEnv, GetCount(CALLBACK_COUNTER));
    callbacks := DecodeGetCountResponse(reply.value).value.count;
    reply := osmo.Query(osmoEnv, GetCount("channel-0"));
    received := DecodeGetCountResponse(reply.value).value.count;
  }
}
