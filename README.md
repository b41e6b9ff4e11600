# simple-callback-via-ibc, modelled in Dafny

The contract is a CosmWasm program, instantiated on two chains joined by an
IBC channel. It keeps one store, `CONNECTION_COUNTS`, which maps a string key
to a `u32` count. Channel identifiers and the literal `callback_counter` are
keys of that one store. The contract's entry points are:

- **Handshake.** `ibc_channel_open` and `ibc_channel_connect` accept only an
  unordered channel whose version is `simple-ibc-callback`. Connect sets the
  channel's count to 0, and `ibc_channel_close` removes the channel's entry.
- **Send.** `execute Increment { channel, callback }` emits one `SendPacket`.
  The packet carries the callback flag and expires 300 seconds after the
  current block.
- **Receive.** `ibc_packet_receive` decodes the payload. It then counts one
  more under the channel the packet arrived on, and acknowledges with the new
  count and the flag. A payload that does not decode gets an error
  acknowledgement instead. This entry point never fails.
- **Acknowledge.** `ibc_packet_ack` decodes the `result`/`error` envelope and
  then the `{count, callback}` payload. If the flag is set, it counts one more
  under `callback_counter` right away. It also emits a self-addressed
  `FirstIncrementCallback` message, which counts one more when the chain runs it.
- **Query.** `query GetCount { count }` returns the stored count for that key,
  or 0 when the key is absent.

Module by module:

- `Wrappers` (wrappers.dfy): Option and Result.
- `Binary` (binary.dfy): a byte encoding that stands in for
  `to_binary`/`from_binary`. A bool takes one byte and a u32 four. A character
  takes three bytes and a string is its characters in order. A
  variant name is a length byte followed by the name; the fields follow in
  declaration order, without their names. The module proves that
  every value decodes back from its encoding, and, for u32, characters and
  strings, that decoding accepts only encodings.
- `CosmWasm` (cosmwasm.dfy): the environment, the IBC channel and packet
  messages, the response types, and `u32::to_string`.
- `Store` (store.dfy): `Load`, which is `may_load(..).unwrap_or_default()`, and
  `Incremented`, which is `update(.., +1)`.
- `Msg` (msg.dfy): `ExecuteMsg`, `IbcExecuteMsg`, `QueryMsg` and
  `GetCountResponse`, with their encodings.
- `Acknowledgement` (ack.dfy): the `Ack` envelope,
  `IncrementMsgAcknowledgement`, `make_ack_success` and `make_ack_fail`.
- `Callback` (callback.dfy): `build_callback`.
- `ContractErrors` (error.dfy): the error variants the entry points raise.
- `Ibc` (ibc.dfy): the pure parts of `ibc.rs`. These are
  `validate_order_and_version` and the two decoding steps of `ibc_packet_ack`.
- `Contract` (contract.dfy): class `Contract`. Its one mutable field `counts`
  is the store, and each entry point is a method that states the new store and
  the response it returns.
- `Relay` (relay.dfy): two instances and a relayer that moves one packet and
  its acknowledgement, step by step. It includes the two-round-trip run of the
  repository's integration test, which reads 2 and then 4.

Points of the code's behaviour that the model keeps as written:

- `Increment` does not check that the channel is open; it sends on whatever
  channel it is given.
- A failed receive acknowledges the error's `to_string()` text.
- Counts are `u32`.
- Closing a channel removes its entry, so the channel then reads as 0.
- After one round trip with the flag set, the sender's `callback_counter`
  reads 2. The acknowledgement handler increments it directly once, and the
  callback message it emits increments it a second time. The receiver's
  channel count plays no part in it.

## Model

| member | source | states |
|---|---|---|
| `Binary.BoolRoundTrip` | src/msg.rs:21-23 | The callback flag decodes back from its one byte. |
| `Binary.U32RoundTrip` | src/ack.rs:30-33 | A `u32` count encodes to four bytes that decode to the same count. |
| `Binary.U32Canonical` | src/ibc.rs:120 | Any four bytes are the encoding of the count they decode to, so decoding is the inverse of encoding in both directions. |
| `Binary.CharRoundTrip` | src/ack.rs:23-26 | Every character of an error text or channel identifier decodes back from its three bytes. |
| `Binary.StringRoundTrip` | src/ack.rs:23-26 | An encoded string, such as an error text or a channel identifier, decodes to the same string. |
| `Binary.EncodeStringCons` | src/ack.rs:23-26 | The encoding of a string is its first character's encoding followed by the encoding of the rest. |
| `Binary.StringCanonical` | src/ibc.rs:117 | Decoding accepts only encodings: a decoded string encodes back to the input bytes. |
| `Binary.KeysExclusive` | src/ack.rs:7-12 | No bytes start with the tags of two names of different lengths, so an envelope cannot be tagged both ways. |
| `CosmWasm.DecimalRoundTrip` | src/contract.rs:56 | The `count` attribute text reads back as the count. |
| `Store.Incremented` | src/ibc.rs:98-100 | The count under the key goes up by exactly 1, with an absent key counting as 0. Every other key keeps its count, the key set gains only that key, and every count stays a `u32`. |
| `Store.IncrementsCommute` | src/ibc.rs:155-157 | Two increments of the shared store give the same counts in either order, with headroom needed once per increment of a key. |
| `Msg.ExecuteMsgRoundTrip` | src/msg.rs:9-17 | Both `ExecuteMsg` variants, `Increment { channel, callback }` and `FirstIncrementCallback {}`, decode from their encodings unchanged. |
| `Msg.IncrementRoundTrip` | src/msg.rs:10-13 | `Increment { channel, callback }` decodes from its encoding with the same channel and flag. |
| `Msg.FirstIncrementCallbackRoundTrip` | src/msg.rs:14 | `FirstIncrementCallback {}` decodes from its encoding, not as `Increment`. |
| `Msg.IbcExecuteMsgRoundTrip` | src/msg.rs:21-23 | The packet payload, which carries only the callback flag, decodes to the same flag. |
| `Msg.IbcExecuteMsgCanonical` | src/ibc.rs:86 | A payload decodes only if it is exactly the encoding of the message it decodes to. |
| `Msg.DecodeIbcExecuteMsg` | src/ibc.rs:86 | An empty payload fails to decode. |
| `Msg.GetCountResponseRoundTrip` | src/msg.rs:37-39 | A `u32` query response decodes to the same count. |
| `Acknowledgement.EncodeAck` | src/ack.rs:8-12 | A result is tagged `result` and an error is tagged `error`, both snake_case. |
| `Acknowledgement.AckRoundTrip` | src/ack.rs:9-12 | Both envelope variants decode from their encodings unchanged. |
| `Acknowledgement.AckCanonical` | src/ack.rs:8-12 | A decoded envelope is a result exactly when its bytes carry the `result` tag, and an error exactly when they carry the `error` tag. It is never both and never neither, and it re-encodes to the same bytes. |
| `Acknowledgement.IncrementAckRoundTrip` | src/ack.rs:29-33 | The success payload `{count, callback}` decodes to the same count and flag. |
| `Acknowledgement.MakeAckSuccess` | src/ack.rs:14-21 | The ack is defined for every `u32` count. It decodes to a `result` envelope whose nested payload decodes to the same count and flag. |
| `Acknowledgement.MakeAckFail` | src/ack.rs:23-26 | The ack is defined for every text, and it decodes to `Error` with the text unchanged. |
| `Callback.BuildCallback` | src/callback.rs:5-19 | The message is a `WasmMsg::Execute` to exactly the address passed in, with no funds. Its message decodes to `FirstIncrementCallback {}`. |
| `Callback.CallbackIgnoresCount` | src/callback.rs:5-11 | The message is the same whatever count is passed. |
| `Ibc.ValidateOrderAndVersion` | src/ibc.rs:177-213 | The check succeeds if and only if the channel is unordered, its version is `simple-ibc-callback`, and the counterparty version, when known, is the same. An ordered channel gets `OrderedChannel` whatever the versions. A wrong channel version gets `InvalidVersion` carrying that version and the expected one. A right channel version with a wrong counterparty version gets `InvalidVersion` carrying the counterparty version and the expected one. Every `InvalidVersion` carries an offending version and the constant. |
| `Ibc.InterpretSuccessAck` | src/ibc.rs:117-124 | The sender reads a success ack as the receiver's count and flag, and runs the callback exactly when the flag is set. |
| `Ibc.InterpretFailAck` | src/ibc.rs:142-144 | The sender reads an error ack as the receiver's error text and never runs the callback. |
| `Ibc.InterpretUntaggedAck` | src/ibc.rs:117 | Bytes that start with neither the `result` nor the `error` tag, the empty payload among them, make the ack handler fail with a `Std` decode error. |
| `Contract.SendIncrement` | src/contract.rs:35-42 | `Increment` emits exactly one `SendPacket`, on the named channel. Its data decodes to `Increment { callback }` with the same flag, and it times out at block time plus 300 seconds. |
| `Contract.CallbackCounted` | src/contract.rs:54-57 | The callback response emits nothing and reports the new count as its `count` attribute. |
| `Contract.Counted` | src/ibc.rs:101-107 | The receive response carries an ack that the sender reads as exactly the new count and the packet's flag, and it emits no message. |
| `Contract.ReceiveFailed` | src/ibc.rs:72-75 | A failed receive acknowledges an `error` envelope that the sender reads as the error text. |
| `Contract.Contract.Instantiate` | src/contract.rs:17-25 | Instantiation succeeds with attribute `method=instantiate` and, having no `modifies` clause, leaves every counter as it was. |
| `Contract.Contract.Execute` | src/contract.rs:28-45 | `Increment` leaves the store unchanged and returns the send response. `FirstIncrementCallback` adds exactly 1 under `callback_counter` whoever the sender is, and reports the new value. |
| `Contract.Contract.ExecuteIbcCallback` | src/contract.rs:47-58 | The count under `callback_counter` goes up by 1, no other key changes, and the new count is reported. |
| `Contract.Contract.QueryCount` | src/contract.rs:67-72 | The result is the stored count for the key, or 0 when it is absent. The query never fails and, as a function, never changes state. |
| `Contract.Contract.Query` | src/contract.rs:61-65 | The encoded reply decodes to the count stored under the key the message names, which can be a channel or `callback_counter`. |
| `Contract.Contract.ChannelOpen` | src/ibc.rs:21-27 | The result is the handshake check with the counterparty version when known. `OpenInit` on an unordered channel with the right version succeeds. |
| `Contract.Contract.ChannelConnect` | src/ibc.rs:30-44 | If the check fails, the error is returned and the store is unchanged. Otherwise the channel's count becomes 0 and every other entry is unchanged. |
| `Contract.Contract.ChannelClose` | src/ibc.rs:47-58 | Only the channel's entry is removed, so the channel then reads as 0. |
| `Contract.Contract.PacketReceive` | src/ibc.rs:61-77 | There is always an ack and never an error. A decodable payload adds exactly 1 under the destination channel whatever the flag, and the ack carries the new count and the flag. An undecodable payload leaves the store unchanged, and the ack carries the error text. |
| `Contract.Contract.DoPacketReceive` | src/ibc.rs:79-91 | Decoding comes before the update, so a decode error is returned with the store unchanged. Otherwise the count is taken under `packet.dest.channel_id`. |
| `Contract.Contract.ExecuteIncrement` | src/ibc.rs:93-108 | The channel's count goes up by 1, no other key changes, and the success ack carries the new count and flag. |
| `Contract.Contract.PacketAck` | src/ibc.rs:111-146 | Bytes that do not decode give an error and leave the store unchanged. An error ack, or a result without the flag, changes nothing and emits nothing. A result with the flag adds exactly 1 under `callback_counter` and emits exactly one callback message to the contract's own address. |
| `Contract.Contract.ExecuteAcknowledgeCallback` | src/ibc.rs:150-162 | The count under `callback_counter` goes up by 1 and no other key changes. |
| `Contract.Contract.PacketTimeout` | src/ibc.rs:165-175 | A timeout succeeds and, having no `modifies` clause, leaves the store unchanged. |
| `Relay.DispatchCallbacks` | src/ibc.rs:137 | Running the emitted callback messages against the contract they address adds one under `callback_counter` per message and changes no other key. |
| `Relay.SendAndDeliver` | src/contract.rs:35-42 | A user's `Increment` leaves the sender's store unchanged. After delivery, the peer has one more under its channel, and its ack reads as that count and the flag. |
| `Relay.AcknowledgeAndDispatch` | src/ibc.rs:133-137 | On a success ack with the flag set, the handler and then the callback message each add 1 under `callback_counter`. Without the flag the store is unchanged, and in both cases no other key changes. |
| `Relay.RelayIncrement` | src/contract.rs:43 | One full round trip adds 1 under the peer's channel, and the ack reads as that count and the flag. With the flag set, the sender's `callback_counter` rises by exactly 2. Without it the sender's store is unchanged. |
| `Relay.FlaggedAppend` | src/ibc.rs:123-124 | The number of flagged round trips in two runs, one after the other, is the sum of the two. |
| `Relay.RelayAll` | src/ibc.rs:98-100 | After a run of round trips, the peer's channel count has risen by the number of round trips whatever the flags, and the sender's `callback_counter` by two per flagged round trip. No other key changes on either side, and a side whose counts do not change keeps its store exactly, with no new zero entry. |
| `Relay.TwoCallbackRoundTrips` | tests/src/contract.spec.ts:156-176 | On fresh instances, `callback_counter` reads 2 after one round trip with the flag and 4 after a second. |
| `Relay.RoundTripWithoutCallback` | src/ibc.rs:124-138 | Without the flag, a round trip leaves the sender's `callback_counter` at 0 and brings the peer's channel count to 1. |

## Left out

- The serde-JSON and base64 bytes of `to_binary`, `from_binary` and
  `from_slice` are replaced by the byte encoding in `Binary`; field names are
  not encoded. The real layout
  comes from libraries outside this model. Decoding here is strict, so it
  rejects trailing bytes and unknown variants.
- The `Display` texts of `ContractError` and `StdError` are not modelled,
  because src/error.rs is not part of this model. `ContractErrors.ErrorText`
  stands in for them with one distinct text per variant.
- `cw2::set_contract_version` in `instantiate` writes a store outside
  `CONNECTION_COUNTS`, and is left out.
- The storage errors that `Map::update`, `save`, `may_load` and `remove` can
  raise on corrupted storage are left out, so those calls cannot fail here.
- `println!` calls and the `entry_point` macros are left out.
- Panics are left out, which leaves out the `unwrap` calls on serialisation
  that cannot fail, and the `?` on `to_binary` in `execute` and
  `build_callback`: serialising those fixed shapes cannot fail, so
  `Callback.BuildCallback` returns the message itself.
- The `u64` overflow of `plus_seconds` is not modelled: time is an unbounded
  count of nanoseconds.
- The relayer and the two chains run concurrently in reality. Here they are
  explicit sequential steps in `Relay`. Timeouts are not driven by a clock.
- Store.Incremented requires the count to be below `u32::MAX`, so what `+ 1`
  does at `u32::MAX` (panic or wrap, depending on the build profile, which is
  not part of this model) is excluded.
- Contract.Contract.Execute requires `callback_counter` below `u32::MAX`
  for `FirstIncrementCallback`, for the same reason.
- Contract.Contract.ExecuteIbcCallback requires `callback_counter` below
  `u32::MAX`, for the same reason.
- Contract.Contract.PacketReceive requires the destination channel's count
  below `u32::MAX` when the payload decodes, for the same reason.
- Contract.Contract.DoPacketReceive has the same requirement as
  `PacketReceive`.
- Contract.Contract.ExecuteIncrement requires the channel's count below
  `u32::MAX`, for the same reason.
- Contract.Contract.PacketAck requires `callback_counter` below `u32::MAX`
  when the ack asks for the callback, for the same reason.
- Contract.Contract.ExecuteAcknowledgeCallback requires `callback_counter`
  below `u32::MAX`, for the same reason.
- Relay.AcknowledgeAndDispatch requires room for two more callbacks when the
  flag is set, for the same reason.
- Relay.RelayIncrement requires room for one more count on the peer's channel,
  and room for two more callbacks when the flag is set, for the same reason.
- Relay.RelayAll requires room for one more count on the peer's channel per
  round trip and two more callbacks per flagged round trip, for the same
  reason.
- Relay.DispatchCallbacks handles only the callback messages this contract
  emits. It does not model the chain's routing of other messages.
