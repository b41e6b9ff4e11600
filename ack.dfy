/** The acknowledgement a receiver writes for a packet: the ICS-004
    `Acknowledgement` envelope (`result` or `error`), and inside a `result`
    the receiver's `IncrementMsgAcknowledgement`. */
module Acknowledgement {
  import opened Wrappers
  import opened Binary

  /** The envelope: exactly one of a result payload or an error text. */
  datatype Ack = Result(data: Bytes) | Error(error: string)

  /** What the receiver reports: its count after the increment, and the
      callback flag the packet carried. */
  datatype IncrementMsgAcknowledgement = IncrementMsgAcknowledgement(count: nat, callback: bool)

  const RESULT_TAG: string := "result"
  const ERROR_TAG: string := "error"

  // ---------------------------------------------------------------------
  // The envelope: tag, then the nested binary or the error text.

  function EncodeAck(a: Ack): (r: Bytes)
    ensures a.Result? ==> HasPrefix(r, Key(RESULT_TAG))
    ensures a.Error? ==> HasPrefix(r, Key(ERROR_TAG))
  {
    match a
    case Result(data) => Key(RESULT_TAG) + data
    case Error(e) => Key(ERROR_TAG) + EncodeString(e)
  }

  function DecodeAck(b: Bytes): Result<Ack, StdError> {
    var res := Key(RESULT_TAG);
    var err := Key(ERROR_TAG);
    if HasPrefix(b, res) then
      Success(Ack.Result(b[|res|..]))
    else if HasPrefix(b, err) then
      match DecodeString(b[|err|..])
      case Some(e) => Success(Ack.Error(e))
      case None => Failure(ParseErr("Ack", "invalid error text"))
    else
      Failure(ParseErr("Ack", "expected result or error"))
  }

  lemma AckRoundTrip(a: Ack)
    ensures DecodeAck(EncodeAck(a)) == Success(a)
  {
    var b := EncodeAck(a);
    var res := Key(RESULT_TAG);
    var err := Key(ERROR_TAG);
    match a
    case Result(data) =>
      assert b[|res|..] == data;
    case Error(e) =>
      KeysExclusive(b, RESULT_TAG, ERROR_TAG);
      assert b[|err|..] == EncodeString(e);
      StringRoundTrip(e);
  }

  /** A decoded acknowledgement is exactly one of result or error, as its
      tag says, and the bytes are its encoding. */
  lemma AckCanonical(b: Bytes)
    requires DecodeAck(b).Success?
    ensures DecodeAck(b).value.Result? <==> HasPrefix(b, Key(RESULT_TAG))
    ensures DecodeAck(b).value.Error? <==> HasPrefix(b, Key(ERROR_TAG))
    ensures EncodeAck(DecodeAck(b).value) == b
  {
    var res := Key(RESULT_TAG);
    var err := Key(ERROR_TAG);
    KeysExclusive(b, RESULT_TAG, ERROR_TAG);
    if HasPrefix(b, res) {
      assert b == res + b[|res|..];
    } else {
      StringCanonical(b[|err|..]);
      assert b == err + b[|err|..];
    }
  }

  // ---------------------------------------------------------------------
  // The success payload: the count as a u32, then the flag.

  function EncodeIncrementAck(a: IncrementMsgAcknowledgement): (r: Bytes)
    requires a.count <= U32_MAX
    ensures |r| == 5
  {
    EncodeU32(a.count) + EncodeBool(a.callback)
  }

  function DecodeIncrementAck(b: Bytes): Result<IncrementMsgAcknowledgement, StdError> {
    if |b| == 5 && b[4] < 2 then
      Success(IncrementMsgAcknowledgement(DecodeU32(b[..4]), b[4] == 1))
    else
      Failure(ParseErr("IncrementMsgAcknowledgement", "expected count and callback"))
  }

  lemma IncrementAckRoundTrip(a: IncrementMsgAcknowledgement)
    requires a.count <= U32_MAX
    ensures DecodeIncrementAck(EncodeIncrementAck(a)) == Success(a)
  {
    var b := EncodeIncrementAck(a);
    assert b[..4] == EncodeU32(a.count);
    U32RoundTrip(a.count);
  }

  // ---------------------------------------------------------------------
  // The two acknowledgements a receiver writes.

  /** `make_ack_success`: total for every `u32` count; the nested payload
      reads back as the same count and flag. */
  function MakeAckSuccess(count: nat, callback: bool): (r: Bytes)
    requires count <= U32_MAX
    ensures DecodeAck(r).Success? && DecodeAck(r).value.Result?
    ensures DecodeIncrementAck(DecodeAck(r).value.data)
            == Success(IncrementMsgAcknowledgement(count, callback))
  {
    var content := IncrementMsgAcknowledgement(count, callback);
    AckRoundTrip(Ack.Result(EncodeIncrementAck(content)));
    IncrementAckRoundTrip(content);
    EncodeAck(Ack.Result(EncodeIncrementAck(content)))
  }

  /** `make_ack_fail`: the error text comes back unchanged. */
  function MakeAckFail(err: string): (r: Bytes)
    ensures DecodeAck(r) == Success(Ack.Error(err))
  {
    AckRoundTrip(Ack.Error(err));
    EncodeAck(Ack.Error(err))
  }
}
