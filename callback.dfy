/** The self-addressed message the acknowledgement handler emits. */
module Callback {
  import opened Wrappers
  import opened Binary
  import opened CosmWasm
  import opened Msg

  /** `build_callback`: a `WasmMsg::Execute` of `FirstIncrementCallback {}`
      to `contractAddr`, with no funds. The count is accepted and ignored. */
  function BuildCallback(count: nat, contractAddr: string): (m: WasmMsg)
    ensures m.contractAddr == contractAddr
    ensures m.funds == []
    ensures DecodeExecuteMsg(m.msg) == Success(FirstIncrementCallback)
  {
    ExecuteMsgRoundTrip(FirstIncrementCallback);
    Execute(contractAddr, EncodeExecuteMsg(FirstIncrementCallback), [])
  }

  /** The message does not depend on the count passed in. */
  lemma CallbackIgnoresCount(c1: nat, c2: nat, addr: string)
    ensures BuildCallback(c1, addr) == BuildCallback(c2, addr)
  {
  }
}
