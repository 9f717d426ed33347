/**
 * The builder as a state machine over the staging record. Each `Op` is one
 * builder call; `Apply` is its effect on the record, `Writes` the fields it
 * assigns, and `Run` a sequence of calls on one builder. A call whose
 * encoder throws leaves the record as it was; a caller that catches the
 * exception may go on calling the same builder, so `Run` does not stop
 * there. A chained Java expression does stop at the exception: its effect
 * is `Run` of the calls up to and including the throwing one.
 */
module Staging {
  import opened Wrappers
  import opened JavaInts
  import opened TransactionRecord
  import opened Identity

  /** The encoder's exception (`encodeDeployJar`, `encodeInvokeBeanJava`). */
  datatype EncodingError = EncodingError(reason: string)

  /** The address `deploy` routes to: no existing contract. */
  const DeployTarget: string := "0x"

  /**
   * One builder call. `Deploy` and `Invoke` carry what the encoder returned
   * for their argument; `Build` carries the clock reading, the jitter and
   * the nonce that `build` draws.
   */
  datatype Op =
    | Transfer(to: string, value: int64)
    | Simulate
    | Extra(data: string)
    | Deploy(encoded: Result<string, EncodingError>)
    | Invoke(contractAddress: string, encoded: Result<string, EncodingError>)
    | Build(clockMillis: int64, jitter: int32, nonce: int64)

  /** The call throws before touching the record: its encoder failed. */
  predicate Fails(op: Op) {
    (op.Deploy? || op.Invoke?) && op.encoded.Failure?
  }

  /** The fields the call assigns when it does not throw. */
  function Writes(op: Op): set<Field> {
    match op
    case Transfer(_, _) => {To, Value}
    case Simulate => {SimulateFlag}
    case Extra(_) => {ExtraInfo}
    case Deploy(_) => {To, Payload}
    case Invoke(_, _) => {To, Payload}
    case Build(_, _, _) => {Timestamp, Nonce}
  }

  /**
   * The staging record after the call. A call changes no field outside its
   * write set, and a call whose encoder throws changes nothing.
   */
  function Apply(r: Record, op: Op): (r': Record)
    ensures forall f :: f !in Writes(op) || Fails(op) ==> Agree(r, r', f)
  {
    if Fails(op) then r
    else match op
      case Transfer(to, value) => r.(to := Some(to), value := value)
      case Simulate => r.(simulate := true)
      case Extra(data) => r.(extra := Some(data))
      case Deploy(encoded) => r.(to := Some(DeployTarget), payload := Some(encoded.value))
      case Invoke(address, encoded) => r.(to := Some(address), payload := Some(encoded.value))
      case Build(clockMillis, jitter, nonce) => r.(timestamp := GenTimestamp(clockMillis, jitter), nonce := nonce)
  }

  /** Field `f` is written by none of the calls in `ops`. */
  predicate Untouched(ops: seq<Op>, f: Field) {
    forall i :: 0 <= i < |ops| ==> f !in Writes(ops[i])
  }

  /**
   * The record after the calls `ops`, in order, on one builder. A sequence
   * of calls changes no field that none of its calls writes.
   */
  function Run(r: Record, ops: seq<Op>): (r': Record)
    ensures forall f :: Untouched(ops, f) ==> Agree(r, r', f)
    decreases |ops|
  {
    if ops == [] then r
    else
      assert forall f :: Untouched(ops, f) ==> Untouched(ops[1..], f) && f !in Writes(ops[0]);
      Run(Apply(r, ops[0]), ops[1..])
  }

  /** The record a plain `Builder(from)` starts from: the defaults with sender `from`. */
  function Start(from: string): (r: Record)
    ensures r.from == Some(from)
    ensures forall f :: f != From ==> Agree(r, Default, f)
  {
    Default.(from := Some(from))
  }

  /** The record an `HVMBuilder(from)` starts from: `Start(from)` with VM type HVM. */
  function HvmStart(from: string): (r: Record)
    ensures r.vmType == Some(HVM)
    ensures forall f :: f != VmType ==> Agree(r, Start(from), f)
  {
    Start(from).(vmType := Some(HVM))
  }

  /** One more call after a sequence of calls: `Run` is `Apply` step by step. */
  lemma {:induction false} RunSnoc(r: Record, ops: seq<Op>, op: Op)
    ensures Run(r, ops + [op]) == Apply(Run(r, ops), op)
    decreases |ops|
  {
    if ops == [] {
      assert [op][1..] == [];
    } else {
      assert (ops + [op])[1..] == ops[1..] + [op];
      RunSnoc(Apply(r, ops[0]), ops[1..], op);
    }
  }

  /**
   * A call that does not throw overwrites its write set outright: the
   * result depends on the prior record only through the other fields.
   */
  lemma ApplyOverwrites(r1: Record, r2: Record, op: Op)
    requires !Fails(op)
    requires forall f :: f !in Writes(op) ==> Agree(r1, r2, f)
    ensures Apply(r1, op) == Apply(r2, op)
  {
    forall f ensures Agree(Apply(r1, op), Apply(r2, op), f) {
      AgreeAfter(r1, r2, op, f);
    }
    AgreeEverywhere(Apply(r1, op), Apply(r2, op));
  }

  /** One field of `ApplyOverwrites`: a written field gets the call's value, any other keeps its agreement. */
  lemma AgreeAfter(r1: Record, r2: Record, op: Op, f: Field)
    requires !Fails(op)
    requires f !in Writes(op) ==> Agree(r1, r2, f)
    ensures Agree(Apply(r1, op), Apply(r2, op), f)
  {
  }

  /**
   * Last write wins: a call whose fields the next, successful, call all
   * rewrites leaves no trace (`extra` after `extra`, `transfer` after
   * `transfer`, `build` after `build`, `simulate` after `simulate`).
   */
  lemma LastWriteWins(r: Record, first: Op, second: Op)
    requires !Fails(second)
    requires Writes(first) <= Writes(second)
    ensures Apply(Apply(r, first), second) == Apply(r, second)
  {
  }

  /** `extra(x)` then `extra(y)` leaves `extra == y` and otherwise the record `extra(y)` alone leaves. */
  lemma ExtraTwice(r: Record, x: string, y: string)
    ensures Run(r, [Extra(x), Extra(y)]) == Apply(r, Extra(y)) == r.(extra := Some(y))
  {
    var ops := [Extra(x), Extra(y)];
    assert ops[1..] == [Extra(y)] && [Extra(y)][1..] == [];
    assert Run(r, ops) == Run(Apply(r, Extra(x)), [Extra(y)]) == Apply(Apply(r, Extra(x)), Extra(y));
    LastWriteWins(r, Extra(x), Extra(y));
  }

  /**
   * Whatever calls follow, the sender, the VM type, the opcode and the
   * signature keep the values the builder's constructor gave them: no
   * builder call writes them.
   */
  lemma NeverWritten(r: Record, ops: seq<Op>)
    ensures Run(r, ops).from == r.from
    ensures Run(r, ops).vmType == r.vmType
    ensures Run(r, ops).opCode == r.opCode
    ensures Run(r, ops).signature == r.signature
  {
    assert Untouched(ops, From) && Untouched(ops, VmType) && Untouched(ops, OpCode) && Untouched(ops, Signature);
  }

  /** Every record an `HVMBuilder(from)` session reaches has sender `from`, VM type HVM and is unsigned. */
  lemma HvmSession(from: string, ops: seq<Op>)
    ensures Run(HvmStart(from), ops).from == Some(from)
    ensures Run(HvmStart(from), ops).vmType == Some(HVM)
    ensures Run(HvmStart(from), ops).opCode == 0
    ensures Run(HvmStart(from), ops).signature == UnsignedSignature
  {
    NeverWritten(HvmStart(from), ops);
  }

  /** Every record a plain `Builder(from)` session reaches has sender `from`, no VM type and is unsigned. */
  lemma BuilderSession(from: string, ops: seq<Op>)
    ensures Run(Start(from), ops).from == Some(from)
    ensures Run(Start(from), ops).vmType == None
    ensures Run(Start(from), ops).opCode == 0
    ensures Run(Start(from), ops).signature == UnsignedSignature
  {
    NeverWritten(Start(from), ops);
  }

  /** `n` consecutive `simulate()` calls. */
  function Simulates(n: nat): seq<Op> {
    seq(n, _ => Simulate)
  }

  /** Calling `simulate()` n >= 1 times gives the record calling it once gives: the flag set, nothing else changed. */
  lemma {:induction false} SimulateIdempotent(r: Record, n: nat)
    requires n >= 1
    ensures Run(r, Simulates(n)) == Apply(r, Simulate) == r.(simulate := true)
    decreases n
  {
    var ops := Simulates(n);
    assert ops[0] == Simulate && ops[1..] == Simulates(n - 1);
    if n == 1 {
      assert Run(Apply(r, Simulate), []) == Apply(r, Simulate);
    } else {
      SimulateIdempotent(Apply(r, Simulate), n - 1);
      LastWriteWins(r, Simulate, Simulate);
    }
  }

  /**
   * A call whose encoder throws contributes nothing: the sequence of calls
   * has the effect of the same sequence without it. In particular a chained
   * expression that stops at the exception leaves what the calls before it
   * left.
   */
  lemma {:induction false} FailedCallSkipped(r: Record, ops: seq<Op>, k: nat)
    requires k < |ops| && Fails(ops[k])
    ensures Run(r, ops) == Run(r, ops[..k] + ops[k + 1..])
    decreases k
  {
    if k == 0 {
      assert ops[..0] + ops[1..] == ops[1..];
    } else {
      assert ops[1..][k - 1] == ops[k];
      FailedCallSkipped(Apply(r, ops[0]), ops[1..], k - 1);
      var rest := ops[..k] + ops[k + 1..];
      assert rest[0] == ops[0] && rest[1..] == ops[1..][..k - 1] + ops[1..][k..];
    }
  }
}
