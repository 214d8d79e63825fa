/** Why a request was turned away; every kind answers HTTP 400 except `ClassCast`. */
module Errors {
  import opened Json

  datatype NameProblem = Empty | TooLong

  /** Which lookup failed: names the message "Invalid ... ID". */
  datatype IdKind = TenantKind | VmKind | FlowKind | SourceVm | DestinationVm

  datatype Error =
    | Malformed                 // the body is not a JSON object
    | MissingKey(key: Key)      // the first required key that is absent
    | WrongType(key: Key)       // present, but boxed in the wrong class
    | BadName(problem: NameProblem)
    | BadIp(key: Key)           // a string the IPv4 resolver refused
    | InvalidId(kind: IdKind)   // the id is not a key of the gateway's map
    | InvalidCookie             // the supplied cookie differs from the owner's
    | BackendRejected(reason: string)
    | ClassCast(key: Key)       // an uncaught ClassCastException (HTTP 500)
}
