/** The values the chain runtime hands to the contract and takes back from it:
    environment, IBC channel and packet messages, and responses. These are
    `cosmwasm_std` types; only the fields the contract reads or fills are kept. */
module CosmWasm {
  import opened Wrappers
  import opened Binary

  /** A block time in nanoseconds since the epoch. */
  datatype Timestamp = Timestamp(nanos: nat)

  const NANOS_PER_SECOND: nat := 1_000_000_000

  /** `Timestamp::plus_seconds`. */
  function PlusSeconds(t: Timestamp, seconds: nat): Timestamp
  {
    Timestamp(t.nanos + seconds * NANOS_PER_SECOND)
  }

  /** `Env`: the block time and the address of the contract being run. */
  datatype Env = Env(blockTime: Timestamp, contractAddress: string)

  /** `MessageInfo`: who sent the message, and the funds attached. */
  datatype MessageInfo = MessageInfo(sender: string, funds: seq<Coin>)

  datatype Coin = Coin(denom: string, amount: nat)

  datatype Attribute = Attribute(key: string, value: string)

  // ---------------------------------------------------------------------
  // IBC channels and packets.

  datatype IbcOrder = Unordered | Ordered

  datatype IbcEndpoint = IbcEndpoint(portId: string, channelId: string)

  datatype IbcChannel = IbcChannel(
    endpoint: IbcEndpoint,
    counterpartyEndpoint: IbcEndpoint,
    order: IbcOrder,
    version: string,
    connectionId: string)

  /** `IbcChannelOpenMsg`: only `OpenTry` knows the counterparty's version. */
  datatype IbcChannelOpenMsg =
    | OpenInit(channel: IbcChannel)
    | OpenTry(channel: IbcChannel, counterpartyVersion: string)
  {
    function CounterpartyVersion(): Option<string>
    {
      if OpenTry? then Some(counterpartyVersion) else None
    }
  }

  /** `IbcChannelConnectMsg`: only `OpenAck` knows the counterparty's version. */
  datatype IbcChannelConnectMsg =
    | OpenAck(channel: IbcChannel, counterpartyVersion: string)
    | OpenConfirm(channel: IbcChannel)
  {
    function CounterpartyVersion(): Option<string>
    {
      if OpenAck? then Some(counterpartyVersion) else None
    }
  }

  datatype IbcChannelCloseMsg =
    | CloseInit(channel: IbcChannel)
    | CloseConfirm(channel: IbcChannel)

  datatype IbcTimeout = IbcTimeout(timestamp: Timestamp)

  datatype IbcPacket = IbcPacket(
    data: Bytes,
    src: IbcEndpoint,
    dest: IbcEndpoint,
    sequence: nat,
    timeout: IbcTimeout)

  datatype IbcPacketReceiveMsg = IbcPacketReceiveMsg(packet: IbcPacket, relayer: string)

  datatype IbcAcknowledgement = IbcAcknowledgement(data: Bytes)

  datatype IbcPacketAckMsg = IbcPacketAckMsg(
    acknowledgement: IbcAcknowledgement,
    originalPacket: IbcPacket,
    relayer: string)

  datatype IbcPacketTimeoutMsg = IbcPacketTimeoutMsg(packet: IbcPacket, relayer: string)

  // ---------------------------------------------------------------------
  // Messages a response asks the chain to dispatch, and the responses.

  datatype IbcMsg = SendPacket(channelId: string, data: Bytes, timeout: IbcTimeout)

  datatype WasmMsg = Execute(contractAddr: string, msg: Bytes, funds: seq<Coin>)

  datatype CosmosMsg = Ibc(ibc: IbcMsg) | Wasm(wasm: WasmMsg)

  /** `Response` of `execute`, and `IbcBasicResponse` of the channel and
      acknowledgement entry points, which has the same two parts. */
  datatype Response = Response(messages: seq<CosmosMsg>, attributes: seq<Attribute>)

  type IbcBasicResponse = Response

  /** `IbcReceiveResponse`: a response that also carries the acknowledgement. */
  datatype IbcReceiveResponse = IbcReceiveResponse(
    ack: Option<Bytes>,
    messages: seq<CosmosMsg>,
    attributes: seq<Attribute>)

  // ---------------------------------------------------------------------
  // `u32::to_string`, used for the `count` attributes.

  function DigitChar(d: nat): (c: char)
    requires d < 10
    ensures '0' <= c <= '9'
  {
    (d + '0' as int) as char
  }

  function DecimalString(n: nat): (s: string)
    ensures |s| >= 1 && forall i :: 0 <= i < |s| ==> '0' <= s[i] <= '9'
  {
    if n < 10 then [DigitChar(n)] else DecimalString(n / 10) + [DigitChar(n % 10)]
  }

  /** The number a string of decimal digits spells. */
  function DecimalValue(s: string): nat
    requires forall i :: 0 <= i < |s| ==> '0' <= s[i] <= '9'
  {
    if s == [] then 0 else 10 * DecimalValue(s[..|s| - 1]) + (s[|s| - 1] as int - '0' as int)
  }

  /** The decimal text of an attribute reads back as the number written. */
  lemma {:induction false} DecimalRoundTrip(n: nat)
    ensures DecimalValue(DecimalString(n)) == n
  {
    var s := DecimalString(n);
    if n >= 10 {
      DecimalRoundTrip(n / 10);
      assert s[..|s| - 1] == DecimalString(n / 10);
    }
  }
}
