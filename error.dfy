/** `ContractError`, with the variants the entry points raise. */
module ContractErrors {
  import opened Wrappers
  import opened Binary

  datatype ContractError =
    | Std(std: StdError)
    | OrderedChannel
    | InvalidVersion(actual: string, expected: string)

  /** `From<StdError> for ContractError`, the conversion `?` applies to a
      failed decode. */
  function FromStd<T>(r: Result<T, StdError>): Result<T, ContractError>
  {
    match r
    case Success(v) => Success(v)
    case Failure(e) => Failure(Std(e))
  }

  /** The text `to_string()` gives, which a failed receive puts in its error
      acknowledgement. The crate's `Display` strings are not part of this
      model; these texts stand in for them, one per variant. */
  function ErrorText(e: ContractError): string {
    match e
    case Std(ParseErr(target, msg)) => "Error parsing into type " + target + ": " + msg
    case OrderedChannel => "only unordered channels are supported"
    case InvalidVersion(actual, expected) =>
      "invalid IBC channel version - got (" + actual + "), expected (" + expected + ")"
  }
}
