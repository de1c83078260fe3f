/** The collaborators of the user-space decoder whose bodies are not part of
    this model: utils.ToString, utils.Ipv4, utils.Ipv6, utils.Ntohs and the
    per-parameter formatting callbacks.
    Each is passed in as a function value, so every result the model states
    holds whatever these functions do. */
module External {
  import opened Results
  import opened LittleEndian

  /** A decoded parameter value before formatting (Go's `any`). */
  datatype Value =
    | Nil
    | Uint(n: nat, width: nat)  // uint8 … uint64, `width` in bytes
    | Int(i: int, width: nat)   // int8 … int64
    | Str(s: string)
    | Bytes(b: seq<byte>)

  /** The formatting callbacks named in the event table (parseOpenFlags …). */
  datatype Callback =
    | ParseExecveatDird
    | ParseExecveatFlags
    | ParseCloneFlags
    | ParseOpenFlags
    | ParseOpenMode
    | ParseOpenat2Flags
    | ParseOpenat2Mode
    | ParseOpenat2Resolve
    | ParseSocketFamily
    | ParseSocketType
    | ParseSocketProtocol

  datatype Helpers = Helpers(
    toString: (seq<byte>, nat, nat) -> string, // utils.ToString(data, pos, len)
    ipv4: (seq<byte>, nat) -> string,          // utils.Ipv4(data, pos)
    ipv6: (seq<byte>, nat) -> string,          // utils.Ipv6(data, pos)
    ntohs: nat -> nat,                         // utils.Ntohs on a uint16
    callback: (Callback, Value) -> Result<string>)
}
