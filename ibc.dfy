/** The pure parts of the IBC entry points: the channel handshake check and
    the reading of an acknowledgement on the sending side. */
module Ibc {
  import opened Wrappers
  import opened Binary
  import opened CosmWasm
  import opened Acknowledgement
  import opened ContractErrors

  const IBC_VERSION: string := "simple-ibc-callback"

  /** `validate_order_and_version`: the channel must be unordered (checked
      first), its version must be `IBC_VERSION`, and so must the
      counterparty's version when it is known. */
  function ValidateOrderAndVersion(channel: IbcChannel, counterpartyVersion: Option<string>)
    : (r: Result<(), ContractError>)
    ensures r.Success? <==>
      && channel.order == Unordered
      && channel.version == IBC_VERSION
      && (counterpartyVersion.Some? ==> counterpartyVersion.value == IBC_VERSION)
    ensures channel.order != Unordered ==> r == Failure(OrderedChannel)
    ensures channel.order == Unordered && channel.version != IBC_VERSION
            ==> r == Failure(InvalidVersion(channel.version, IBC_VERSION))
    ensures channel.order == Unordered && channel.version == IBC_VERSION
            && counterpartyVersion.Some? && counterpartyVersion.value != IBC_VERSION
            ==> r == Failure(InvalidVersion(counterpartyVersion.value, IBC_VERSION))
    ensures r.Failure? && r.error.InvalidVersion? ==>
      && r.error.expected == IBC_VERSION
      && r.error.actual != IBC_VERSION
      && (r.error.actual == channel.version || counterpartyVersion == Some(r.error.actual))
  {
    if channel.order != Unordered then
      Failure(OrderedChannel)
    else if channel.version != IBC_VERSION then
      Failure(InvalidVersion(channel.version, IBC_VERSION))
    else if counterpartyVersion.Some? && counterpartyVersion.value != IBC_VERSION then
      Failure(InvalidVersion(counterpartyVersion.value, IBC_VERSION))
    else
      Success(())
  }

  /** How the sending side reads an acknowledgement's bytes: the receiver's
      payload under `result`, or the receiver's error text under `error`. */
  datatype AckOutcome =
    | Succeeded(content: IncrementMsgAcknowledgement)
    | Failed(error: string)

  /** The two decoding steps of `ibc_packet_ack`, each failing with
      `ContractError::Std`. */
  function InterpretAck(data: Bytes): Result<AckOutcome, ContractError> {
    var ack :- FromStd(DecodeAck(data));
    if ack.Error? then
      Success(Failed(ack.error))
    else
      var content :- FromStd(DecodeIncrementAck(ack.data));
      Success(Succeeded(content))
  }

  /** Whether acknowledging `data` runs the callback. */
  predicate CallbackRequested(data: Bytes) {
    var outcome := InterpretAck(data);
    outcome.Success? && outcome.value.Succeeded? && outcome.value.content.callback
  }

  /** A success acknowledgement reads back as the count and flag the
      receiver put in it. */
  lemma InterpretSuccessAck(count: nat, callback: bool)
    requires count <= U32_MAX
    ensures InterpretAck(MakeAckSuccess(count, callback))
            == Success(Succeeded(IncrementMsgAcknowledgement(count, callback)))
    ensures CallbackRequested(MakeAckSuccess(count, callback)) == callback
  {
  }

  /** An error acknowledgement reads back as the receiver's error text. */
  lemma InterpretFailAck(err: string)
    ensures InterpretAck(MakeAckFail(err)) == Success(Failed(err))
    ensures !CallbackRequested(MakeAckFail(err))
  {
  }

  /** Bytes that carry neither envelope tag fail to decode, so the handler
      returns an error; the empty payload is one such. */
  lemma InterpretUntaggedAck(b: Bytes)
    requires !HasPrefix(b, Key(RESULT_TAG)) && !HasPrefix(b, Key(ERROR_TAG))
    ensures InterpretAck(b).Failure?
    ensures InterpretAck(b).error.Std?
  {
  }
}
