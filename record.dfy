/**
 * The transaction record (the fields of class `Transaction`) as a value.
 * The builder classes in module Builders hold a mutable object with these
 * fields; `Transaction.Snapshot()` reads it out as a `Record`.
 */
module TransactionRecord {
  import opened Wrappers
  import opened JavaInts

  /**
   * The virtual machine that interprets the payload. Only `HVM` is used by
   * the builders; `Other` stands for the enumeration's remaining constants.
   */
  datatype VMType = HVM | Other(name: string)

  /** The eleven fields of a transaction; a Java `String` or enum field that may be null is an `Option`. */
  datatype Record = Record(
    from: Option<string>,
    to: Option<string>,
    payload: Option<string>,
    value: int64,
    simulate: bool,
    vmType: Option<VMType>,
    opCode: int32,
    extra: Option<string>,
    timestamp: int64,
    nonce: int64,
    signature: string)

  /** The signature a transaction carries until it is signed. */
  const UnsignedSignature: string := "default"

  /** What the private no-argument constructor leaves: Java's defaults, and the unsigned signature marker. */
  const Default: Record := Record(None, None, None, 0, false, None, 0, None, 0, 0, UnsignedSignature)

  /** Names of the record's fields, for stating which ones an operation writes. */
  datatype Field =
    | From | To | Payload | Value | SimulateFlag | VmType
    | OpCode | ExtraInfo | Timestamp | Nonce | Signature

  /** `a` and `b` hold the same value in field `f`. */
  predicate Agree(a: Record, b: Record, f: Field) {
    match f
    case From => a.from == b.from
    case To => a.to == b.to
    case Payload => a.payload == b.payload
    case Value => a.value == b.value
    case SimulateFlag => a.simulate == b.simulate
    case VmType => a.vmType == b.vmType
    case OpCode => a.opCode == b.opCode
    case ExtraInfo => a.extra == b.extra
    case Timestamp => a.timestamp == b.timestamp
    case Nonce => a.nonce == b.nonce
    case Signature => a.signature == b.signature
  }

  /** Two records that agree on every field are the same record. */
  lemma AgreeEverywhere(a: Record, b: Record)
    requires forall f :: Agree(a, b, f)
    ensures a == b
  {
    assert Agree(a, b, From) && Agree(a, b, To) && Agree(a, b, Payload) && Agree(a, b, Value);
    assert Agree(a, b, SimulateFlag) && Agree(a, b, VmType) && Agree(a, b, OpCode) && Agree(a, b, ExtraInfo);
    assert Agree(a, b, Timestamp) && Agree(a, b, Nonce) && Agree(a, b, Signature);
  }
}
