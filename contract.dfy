/** The contract: one `CONNECTION_COUNTS` map and the entry points of
    `contract.rs` (instantiate, execute, query) and `ibc.rs` (channel
    handshake, packet receive, acknowledgement, timeout). Each entry point
    runs to completion on its own; one whose result is an error is rolled
    back by the chain, and the methods here change nothing on that path. */
module Contract {
  import opened Wrappers
  import opened Binary
  import opened CosmWasm
  import opened Msg
  import opened Acknowledgement
  import opened Callback
  import opened ContractErrors
  import opened Store
  import opened Ibc

  /** How long a sent packet stays deliverable. */
  const PACKET_LIFETIME_SECONDS: nat := 300

  /** The response of `execute` for `Increment`: one packet on `channel`
      carrying the callback flag, expiring 300 seconds after this block. */
  function SendIncrement(env: Env, channel: string, callback: bool): (r: Response)
    ensures |r.messages| == 1 && r.messages[0].Ibc?
    ensures r.messages[0].ibc.channelId == channel
    ensures DecodeIbcExecuteMsg(r.messages[0].ibc.data) == Success(IbcIncrement(callback))
    ensures r.messages[0].ibc.timeout.timestamp.nanos
            == env.blockTime.nanos + 300 * NANOS_PER_SECOND
    ensures r.attributes == [Attribute("method", "execute_increment"), Attribute("channel", channel)]
  {
    IbcExecuteMsgRoundTrip(IbcIncrement(callback));
    var packet := SendPacket(
      channel,
      EncodeIbcExecuteMsg(IbcIncrement(callback)),
      IbcTimeout(PlusSeconds(env.blockTime, PACKET_LIFETIME_SECONDS)));
    Response(
      [Ibc(packet)],
      [Attribute("method", "execute_increment"), Attribute("channel", channel)])
  }

  class Contract {
    /** The address the chain gave this instance. */
    const address: string
    /** `CONNECTION_COUNTS`. */
    var counts: Counts

    ghost predicate Valid()
      reads this
    {
      FitsU32(counts)
    }

    /** A freshly stored instance: nothing counted yet. */
    constructor (address: string)
      ensures Valid()
      ensures this.address == address && counts == map[]
    {
      this.address := address;
      counts := map[];
    }

    /** `instantiate`: records the contract version (a store outside this
        model) and touches no counter. */
    method Instantiate(env: Env, info: MessageInfo, msg: InstantiateMsg)
      returns (r: Result<Response, ContractError>)
      ensures r == Success(Response([], [Attribute("method", "instantiate")]))
    {
      r := Success(Response([], [Attribute("method", "instantiate")]));
    }

    // -------------------------------------------------------------------
    // execute

    /** `execute`: `Increment` only builds the packet; `FirstIncrementCallback`
        counts one more callback, whoever sends it. */
    method Execute(env: Env, info: MessageInfo, msg: ExecuteMsg)
      returns (r: Result<Response, ContractError>)
      requires Valid()
      requires msg.FirstIncrementCallback? ==> Load(counts, CALLBACK_COUNTER) < U32_MAX
      modifies this
      ensures Valid()
      ensures msg.Increment? ==>
        counts == old(counts) && r == Success(SendIncrement(env, msg.channel, msg.callback))
      ensures msg.FirstIncrementCallback? ==>
        && counts == Incremented(old(counts), CALLBACK_COUNTER)
        && r == Success(CallbackCounted(Load(counts, CALLBACK_COUNTER)))
    {
      match msg
      case Increment(channel, callback) =>
        r := Success(SendIncrement(env, channel, callback));
      case FirstIncrementCallback =>
        r := ExecuteIbcCallback();
    }

    /** `execute_ibc_callback`: one more under `callback_counter`, and the new
        count reported as an attribute. */
    method ExecuteIbcCallback() returns (r: Result<Response, ContractError>)
      requires Valid()
      requires Load(counts, CALLBACK_COUNTER) < U32_MAX
      modifies this
      ensures Valid()
      ensures counts == Incremented(old(counts), CALLBACK_COUNTER)
      ensures Load(counts, CALLBACK_COUNTER) == Load(old(counts), CALLBACK_COUNTER) + 1
      ensures r == Success(CallbackCounted(Load(counts, CALLBACK_COUNTER)))
    {
      counts := Incremented(counts, CALLBACK_COUNTER);
      var count := Load(counts, CALLBACK_COUNTER);
      r := Success(CallbackCounted(count));
    }

    // -------------------------------------------------------------------
    // query

    /** `query_count`: the stored count under `counter`, 0 when absent. */
    function QueryCount(counter: string): (r: Result<GetCountResponse, StdError>)
      reads this
      ensures r.Success?
      ensures counter in counts ==> r.value.count == counts[counter]
      ensures counter !in counts ==> r.value.count == 0
    {
      Success(GetCountResponse(Load(counts, counter)))
    }

    /** `query`: the encoded `GetCountResponse`, which reads back as the
        stored count under the key the message names. */
    function Query(env: Env, msg: QueryMsg): (r: Result<Bytes, StdError>)
      reads this
      requires Valid()
      ensures r.Success?
      ensures DecodeGetCountResponse(r.value) == Success(GetCountResponse(Load(counts, msg.count)))
    {
      var response := QueryCount(msg.count).value;
      GetCountResponseRoundTrip(response);
      Success(EncodeGetCountResponse(response))
    }

    // -------------------------------------------------------------------
    // channel handshake

    /** `ibc_channel_open`: the handshake check and nothing else. */
    method ChannelOpen(env: Env, msg: IbcChannelOpenMsg) returns (r: Result<(), ContractError>)
      ensures r == ValidateOrderAndVersion(msg.channel, msg.CounterpartyVersion())
      ensures msg.OpenInit? && msg.channel.order == Unordered && msg.channel.version == IBC_VERSION
              ==> r.Success?
    {
      r := ValidateOrderAndVersion(msg.channel, msg.CounterpartyVersion());
    }

    /** `ibc_channel_connect`: after the handshake check, the channel's count
        starts at 0; no other entry changes. */
    method ChannelConnect(env: Env, msg: IbcChannelConnectMsg)
      returns (r: Result<IbcBasicResponse, ContractError>)
      requires Valid()
      modifies this
      ensures Valid()
      ensures var check := ValidateOrderAndVersion(msg.channel, msg.CounterpartyVersion());
        var channel := msg.channel.endpoint.channelId;
        if check.Failure? then
          r == Failure(check.error) && counts == old(counts)
        else
          && counts == old(counts)[channel := 0]
          && r == Success(Response([], [Attribute("method", "ibc_channel_connect"),
                                        Attribute("channel_id", channel)]))
    {
      var check := ValidateOrderAndVersion(msg.channel, msg.CounterpartyVersion());
      if check.Failure? {
        return Failure(check.error);
      }
      var channel := msg.channel.endpoint.channelId;
      counts := counts[channel := 0];
      r := Success(Response([], [Attribute("method", "ibc_channel_connect"),
                                 Attribute("channel_id", channel)]));
    }

    /** `ibc_channel_close`: the channel's entry is removed; no other entry
        changes. */
    method ChannelClose(env: Env, msg: IbcChannelCloseMsg)
      returns (r: Result<IbcBasicResponse, ContractError>)
      requires Valid()
      modifies this
      ensures Valid()
      ensures counts == old(counts) - {msg.channel.endpoint.channelId}
      ensures Load(counts, msg.channel.endpoint.channelId) == 0
      ensures r == Success(Response([], [Attribute("method", "ibc_channel_close"),
                                         Attribute("channel", msg.channel.endpoint.channelId)]))
    {
      var channel := msg.channel.endpoint.channelId;
      counts := counts - {channel};
      r := Success(Response([], [Attribute("method", "ibc_channel_close"),
                                 Attribute("channel", channel)]));
    }

    // -------------------------------------------------------------------
    // packets

    /** `ibc_packet_receive`: always answers with an acknowledgement. A payload
        that decodes counts one more under the channel the packet arrived on
        (whatever its flag) and acknowledges the new count and the flag; one
        that does not decode changes nothing and acknowledges the error text. */
    method PacketReceive(env: Env, msg: IbcPacketReceiveMsg) returns (r: IbcReceiveResponse)
      requires Valid()
      requires DecodeIbcExecuteMsg(msg.packet.data).Success? ==>
               Load(counts, msg.packet.dest.channelId) < U32_MAX
      modifies this
      ensures Valid()
      ensures r.ack.Some?
      ensures var channel := msg.packet.dest.channelId;
        match DecodeIbcExecuteMsg(msg.packet.data)
        case Success(m) =>
          && counts == Incremented(old(counts), channel)
          && r == Counted(Load(counts, channel), m.callback)
        case Failure(e) =>
          && counts == old(counts)
          && r == ReceiveFailed(ErrorText(Std(e)))
    {
      var result := DoPacketReceive(env, msg);
      match result
      case Success(response) =>
        r := response;
      case Failure(error) =>
        r := ReceiveFailed(ErrorText(error));
    }

    /** `do_ibc_packet_receive`: decode, then count under the destination
        channel. The decode error is returned before anything is stored. */
    method DoPacketReceive(env: Env, msg: IbcPacketReceiveMsg)
      returns (r: Result<IbcReceiveResponse, ContractError>)
      requires Valid()
      requires DecodeIbcExecuteMsg(msg.packet.data).Success? ==>
               Load(counts, msg.packet.dest.channelId) < U32_MAX
      modifies this
      ensures Valid()
      ensures var channel := msg.packet.dest.channelId;
        match DecodeIbcExecuteMsg(msg.packet.data)
        case Success(m) =>
          && counts == Incremented(old(counts), channel)
          && r == Success(Counted(Load(counts, channel), m.callback))
        case Failure(e) =>
          counts == old(counts) && r == Failure(Std(e))
    {
      var channel := msg.packet.dest.channelId;
      var m :- FromStd(DecodeIbcExecuteMsg(msg.packet.data));
      r := ExecuteIncrement(channel, m.callback);
    }

    /** `execute_increment`: one more under `channel`, acknowledged as the new
        count and the packet's flag. */
    method ExecuteIncrement(channel: string, callback: bool)
      returns (r: Result<IbcReceiveResponse, ContractError>)
      requires Valid()
      requires Load(counts, channel) < U32_MAX
      modifies this
      ensures Valid()
      ensures counts == Incremented(old(counts), channel)
      ensures Load(counts, channel) == Load(old(counts), channel) + 1
      ensures r == Success(Counted(Load(counts, channel), callback))
    {
      counts := Incremented(counts, channel);
      var count := Load(counts, channel);
      r := Success(Counted(count, callback));
    }

    /** `ibc_packet_ack`: an acknowledgement that does not decode is an error
        and changes nothing; an error acknowledgement, or a result without
        the callback flag, changes nothing and emits nothing; a result with
        the flag counts one more callback here and emits one callback message
        to this same contract, which counts another when it runs. */
    method PacketAck(env: Env, msg: IbcPacketAckMsg)
      returns (r: Result<IbcBasicResponse, ContractError>)
      requires Valid()
      requires CallbackRequested(msg.acknowledgement.data) ==>
               Load(counts, CALLBACK_COUNTER) < U32_MAX
      modifies this
      ensures Valid()
      ensures var outcome := InterpretAck(msg.acknowledgement.data);
        outcome.Failure? ==> r == Failure(outcome.error) && counts == old(counts)
      ensures var outcome := InterpretAck(msg.acknowledgement.data);
        outcome.Success? && outcome.value.Failed? ==>
          && counts == old(counts)
          && r == Success(Response([], [Attribute("ack", "failed"), Attribute("error", outcome.value.error)]))
      ensures var outcome := InterpretAck(msg.acknowledgement.data);
        outcome.Success? && outcome.value.Succeeded? && !outcome.value.content.callback ==>
          && counts == old(counts)
          && r == Success(Response([], [Attribute("ack", "success")]))
      ensures var outcome := InterpretAck(msg.acknowledgement.data);
        outcome.Success? && outcome.value.Succeeded? && outcome.value.content.callback ==>
          && counts == Incremented(old(counts), CALLBACK_COUNTER)
          && r == Success(Response([Wasm(BuildCallback(outcome.value.content.count, env.contractAddress))],
                                   [Attribute("ack", "success")]))
    {
      var decoded := InterpretAck(msg.acknowledgement.data);
      if decoded.Failure? {
        return Failure(decoded.error);
      }
      match decoded.value
      case Failed(e) =>
        r := Success(Response([], [Attribute("ack", "failed"), Attribute("error", e)]));
      case Succeeded(content) =>
        var res := Response([], [Attribute("ack", "success")]);
        if content.callback {
          var _ := ExecuteAcknowledgeCallback();
          res := res.(messages := res.messages + [Wasm(BuildCallback(content.count, env.contractAddress))]);
          assert res.messages == [Wasm(BuildCallback(content.count, env.contractAddress))];
        }
        r := Success(res);
    }

    /** `execute_acknowledge_callback`: one more under `callback_counter`. */
    method ExecuteAcknowledgeCallback() returns (r: Result<IbcBasicResponse, ContractError>)
      requires Valid()
      requires Load(counts, CALLBACK_COUNTER) < U32_MAX
      modifies this
      ensures Valid()
      ensures counts == Incremented(old(counts), CALLBACK_COUNTER)
      ensures Load(counts, CALLBACK_COUNTER) == Load(old(counts), CALLBACK_COUNTER) + 1
      ensures r == Success(Response([], [Attribute("count", DecimalString(Load(counts, CALLBACK_COUNTER)))]))
    {
      counts := Incremented(counts, CALLBACK_COUNTER);
      var count := Load(counts, CALLBACK_COUNTER);
      r := Success(Response([], [Attribute("count", DecimalString(count))]));
    }

    /** `ibc_packet_timeout`: nothing to undo; no state changes. */
    method PacketTimeout(env: Env, msg: IbcPacketTimeoutMsg)
      returns (r: Result<IbcBasicResponse, ContractError>)
      ensures r == Success(Response([], [Attribute("method", "ibc_packet_timeout")]))
    {
      r := Success(Response([], [Attribute("method", "ibc_packet_timeout")]));
    }
  }

  /** The response of `execute_ibc_callback` for the new count. */
  function CallbackCounted(count: nat): (r: Response)
    ensures r.messages == [] && |r.attributes| == 2
    ensures var a := r.attributes[1];
      && a.key == "count"
      && (forall i :: 0 <= i < |a.value| ==> '0' <= a.value[i] <= '9')
      && DecimalValue(a.value) == count
  {
    DecimalRoundTrip(count);
    Response([], [Attribute("method", "execute_ibc_callback"), Attribute("count", DecimalString(count))])
  }

  /** The response of `execute_increment`: the success acknowledgement with
      the new count and the flag, and the count as an attribute. */
  function Counted(count: nat, callback: bool): (r: IbcReceiveResponse)
    requires count <= U32_MAX
    ensures r.ack.Some?
    ensures InterpretAck(r.ack.value) == Success(Succeeded(IncrementMsgAcknowledgement(count, callback)))
    ensures r.messages == []
  {
    InterpretSuccessAck(count, callback);
    IbcReceiveResponse(
      Some(MakeAckSuccess(count, callback)),
      [],
      [Attribute("method", "execute_increment"), Attribute("count", DecimalString(count))])
  }

  /** The response of `ibc_packet_receive` when processing failed: the
      error acknowledgement carrying `text`. */
  function ReceiveFailed(text: string): (r: IbcReceiveResponse)
    ensures r.ack.Some? && InterpretAck(r.ack.value) == Success(Failed(text))
    ensures r.messages == []
  {
    InterpretFailAck(text);
    IbcReceiveResponse(
      Some(MakeAckFail(text)),
      [],
      [Attribute("method", "ibc_packet_receive"), Attribute("error", text)])
  }
}
