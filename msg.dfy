/** The messages the entry points consume and produce, with their encodings.
    Variant names are written in snake_case, as the serde attributes on the
    Rust enums ask; the fields follow in declaration order, without names. */
module Msg {
  import opened Wrappers
  import opened Binary

  datatype InstantiateMsg = InstantiateMsg

  /** The two things a user (or the contract itself) can ask `execute` to do. */
  datatype ExecuteMsg =
    | Increment(channel: string, callback: bool)
    | FirstIncrementCallback

  /** The packet payload. It carries the callback flag only: the receiver
      counts under the channel the packet arrived on. */
  datatype IbcExecuteMsg = IbcIncrement(callback: bool)

  /** `GetCount { count }`: `count` is the storage key to read. */
  datatype QueryMsg = GetCount(count: string)

  datatype GetCountResponse = GetCountResponse(count: nat)

  const INCREMENT_TAG: string := "increment"
  const FIRST_INCREMENT_CALLBACK_TAG: string := "first_increment_callback"

  // ---------------------------------------------------------------------
  // ExecuteMsg: variant name, then the fields.

  function EncodeExecuteMsg(m: ExecuteMsg): Bytes {
    match m
    case Increment(channel, callback) => Key(INCREMENT_TAG) + EncodeString(channel) + EncodeBool(callback)
    case FirstIncrementCallback => Key(FIRST_INCREMENT_CALLBACK_TAG)
  }

  function DecodeExecuteMsg(b: Bytes): Result<ExecuteMsg, StdError> {
    var inc := Key(INCREMENT_TAG);
    if HasPrefix(b, inc) && |b| > |inc| then
      match (DecodeBool(b[|b| - 1]), DecodeString(b[|inc|..|b| - 1]))
      case (Some(callback), Some(channel)) => Success(Increment(channel, callback))
      case _ => Failure(ParseErr("ExecuteMsg", "invalid increment fields"))
    else if b == Key(FIRST_INCREMENT_CALLBACK_TAG) then
      Success(FirstIncrementCallback)
    else
      Failure(ParseErr("ExecuteMsg", "unknown variant"))
  }

  lemma ExecuteMsgRoundTrip(m: ExecuteMsg)
    ensures DecodeExecuteMsg(EncodeExecuteMsg(m)) == Success(m)
  {
    match m
    case Increment(channel, callback) => IncrementRoundTrip(channel, callback);
    case FirstIncrementCallback => FirstIncrementCallbackRoundTrip();
  }

  lemma IncrementRoundTrip(channel: string, callback: bool)
    ensures DecodeExecuteMsg(EncodeExecuteMsg(Increment(channel, callback))) == Success(Increment(channel, callback))
  {
    var inc := Key(INCREMENT_TAG);
    var b := inc + EncodeString(channel) + EncodeBool(callback);
    assert b == EncodeExecuteMsg(Increment(channel, callback));
    assert b[..|inc|] == inc;
    assert b[|b| - 1] == EncodeBool(callback)[0];
    assert b[|inc|..|b| - 1] == EncodeString(channel);
    StringRoundTrip(channel);
  }

  lemma FirstIncrementCallbackRoundTrip()
    ensures DecodeExecuteMsg(EncodeExecuteMsg(FirstIncrementCallback)) == Success(FirstIncrementCallback)
  {
    var b := Key(FIRST_INCREMENT_CALLBACK_TAG);
    KeysExclusive(b, INCREMENT_TAG, FIRST_INCREMENT_CALLBACK_TAG);
    assert !HasPrefix(b, Key(INCREMENT_TAG));
    assert EncodeExecuteMsg(FirstIncrementCallback) == b;
  }

  // ---------------------------------------------------------------------
  // IbcExecuteMsg: variant name, then the flag; nothing may follow.

  function EncodeIbcExecuteMsg(m: IbcExecuteMsg): (r: Bytes) {
    Key(INCREMENT_TAG) + EncodeBool(m.callback)
  }

  function DecodeIbcExecuteMsg(b: Bytes): (r: Result<IbcExecuteMsg, StdError>)
    ensures b == [] ==> r.Failure?
  {
    var inc := Key(INCREMENT_TAG);
    if HasPrefix(b, inc) && |b| == |inc| + 1 && b[|inc|] < 2 then
      Success(IbcIncrement(b[|inc|] == 1))
    else
      Failure(ParseErr("IbcExecuteMsg", "expected increment"))
  }

  lemma IbcExecuteMsgRoundTrip(m: IbcExecuteMsg)
    ensures DecodeIbcExecuteMsg(EncodeIbcExecuteMsg(m)) == Success(m)
  {
    var b := EncodeIbcExecuteMsg(m);
    assert b[..|Key(INCREMENT_TAG)|] == Key(INCREMENT_TAG);
  }

  /** A payload is accepted exactly when it is the encoding of the message it
      decodes to. */
  lemma IbcExecuteMsgCanonical(b: Bytes)
    requires DecodeIbcExecuteMsg(b).Success?
    ensures EncodeIbcExecuteMsg(DecodeIbcExecuteMsg(b).value) == b
  {
    var inc := Key(INCREMENT_TAG);
    assert b == b[..|inc|] + [b[|inc|]];
  }

  // ---------------------------------------------------------------------
  // GetCountResponse: the count as a u32.

  function EncodeGetCountResponse(r: GetCountResponse): Bytes
    requires r.count <= U32_MAX
  {
    EncodeU32(r.count)
  }

  function DecodeGetCountResponse(b: Bytes): Result<GetCountResponse, StdError> {
    if |b| == 4 then Success(GetCountResponse(DecodeU32(b)))
    else Failure(ParseErr("GetCountResponse", "expected four bytes"))
  }

  lemma GetCountResponseRoundTrip(r: GetCountResponse)
    requires r.count <= U32_MAX
    ensures DecodeGetCountResponse(EncodeGetCountResponse(r)) == Success(r)
  {
    U32RoundTrip(r.count);
  }
}
