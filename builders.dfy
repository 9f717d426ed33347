/**
 * The classes `Transaction`, `Transaction.Builder` and
 * `Transaction.HVMBuilder`. A builder owns one staging `Transaction` object
 * and every call writes fields of that object in place; `build` stamps it
 * and hands the very same object back. Each method's effect is stated as
 * `Staging.Apply` on the object's snapshot; `HvmCallSequence` shows how a
 * sequence of real calls is carried to `Staging.Run` and its lemmas.
 */
module Builders {
  import opened Wrappers
  import opened JavaInts
  import opened TransactionRecord
  import opened Identity
  import opened Staging

  /** The transaction object: mutable fields, read out as a `Record` by `Snapshot`. */
  class Transaction {
    var from: Option<string>
    var to: Option<string>
    var payload: Option<string>
    var value: int64
    var simulate: bool
    var vmType: Option<VMType>
    var opCode: int32
    var extra: Option<string>
    var timestamp: int64
    var nonce: int64
    var signature: string

    /** The record the object currently holds. */
    function Snapshot(): Record
      reads this
    {
      Record(from, to, payload, value, simulate, vmType, opCode, extra, timestamp, nonce, signature)
    }

    /** The private constructor: every field at its default, the signature unsigned. */
    constructor ()
      ensures Snapshot() == Default
    {
      from, to, payload := None, None, None;
      value, simulate, vmType, opCode := 0, false, None, 0;
      extra, timestamp, nonce := None, 0, 0;
      signature := UnsignedSignature;
    }
  }

  /** The base builder: one staging transaction, shared by every call and by `build`'s result. */
  class Builder {
    var transaction: Transaction

    /** A fresh staging transaction whose sender is `from`, everything else at its default. */
    constructor (from: string)
      ensures fresh(transaction)
      ensures transaction.Snapshot() == Start(from)
    {
      transaction := new Transaction();
      new;
      transaction.from := Some(from);
    }

    /** Sets `to` and `value` and returns this builder. */
    method Transfer(to: string, value: int64) returns (self: Builder)
      modifies transaction
      ensures self == this
      ensures transaction.Snapshot() == Apply(old(transaction.Snapshot()), Op.Transfer(to, value))
    {
      transaction.to := Some(to);
      transaction.value := value;
      self := this;
    }

    /** Marks the transaction as a dry run and returns this builder. */
    method Simulate() returns (self: Builder)
      modifies transaction
      ensures self == this
      ensures transaction.Snapshot() == Apply(old(transaction.Snapshot()), Op.Simulate)
    {
      transaction.simulate := true;
      self := this;
    }

    /** Sets `extra` and returns this builder. */
    method Extra(extra: string) returns (self: Builder)
      modifies transaction
      ensures self == this
      ensures transaction.Snapshot() == Apply(old(transaction.Snapshot()), Op.Extra(extra))
    {
      transaction.extra := Some(extra);
      self := this;
    }

    /**
     * Stamps the staging transaction with the timestamp for the given clock
     * reading and jitter and with the given nonce, and returns that same
     * object: a later `Build` restamps what an earlier one returned.
     */
    method Build(clockMillis: int64, jitter: int32, nonce: int64) returns (t: Transaction)
      modifies transaction
      ensures t == transaction
      ensures transaction.Snapshot() == Apply(old(transaction.Snapshot()), Op.Build(clockMillis, jitter, nonce))
    {
      transaction.timestamp := GenTimestamp(clockMillis, jitter);
      transaction.nonce := nonce;
      t := transaction;
    }
  }

  /**
   * The HVM builder. In Java it extends `Builder`; here it holds one, `base`,
   * on which the common calls are made.
   */
  class HVMBuilder {
    var base: Builder

    /** A base builder for `from` whose staging transaction has VM type HVM. */
    constructor (from: string)
      ensures fresh(base) && fresh(base.transaction)
      ensures base.transaction.Snapshot() == HvmStart(from)
    {
      base := new Builder(from);
      new;
      base.transaction.vmType := Some(HVM);
    }

    /**
     * Encodes the jar first; if the encoder throws, the error propagates and
     * nothing is written. Otherwise routes to the deployment address, stores
     * the payload and returns the base builder.
     */
    method Deploy(jarPath: string, encodeDeployJar: string -> Result<string, EncodingError>)
      returns (r: Result<Builder, EncodingError>)
      modifies base.transaction
      ensures r == if encodeDeployJar(jarPath).Success? then Success(base) else Failure(encodeDeployJar(jarPath).error)
      ensures base.transaction.Snapshot() == Apply(old(base.transaction.Snapshot()), Op.Deploy(encodeDeployJar(jarPath)))
    {
      var payload := encodeDeployJar(jarPath);
      if payload.Failure? {
        return Failure(payload.error);
      }
      base.transaction.to := Some(DeployTarget);
      base.transaction.payload := Some(payload.value);
      r := Success(base);
    }

    /**
     * Encodes the invocation first; if the encoder throws, the error
     * propagates and nothing is written. Otherwise routes to the contract,
     * stores the payload and returns the base builder.
     */
    method Invoke<I>(contractAddress: string, baseInvoke: I, encodeInvokeBeanJava: I -> Result<string, EncodingError>)
      returns (r: Result<Builder, EncodingError>)
      modifies base.transaction
      ensures r == if encodeInvokeBeanJava(baseInvoke).Success? then Success(base) else Failure(encodeInvokeBeanJava(baseInvoke).error)
      ensures base.transaction.Snapshot() ==
              Apply(old(base.transaction.Snapshot()), Op.Invoke(contractAddress, encodeInvokeBeanJava(baseInvoke)))
    {
      var payload := encodeInvokeBeanJava(baseInvoke);
      if payload.Failure? {
        return Failure(payload.error);
      }
      base.transaction.to := Some(contractAddress);
      base.transaction.payload := Some(payload.value);
      r := Success(base);
    }
  }

  /**
   * `new Builder("0xAAA").transfer("0xBBB", 500).extra("memo").build()`:
   * the sender, recipient, value and memo as given, no dry run, no payload,
   * unsigned, and stamped with the given readings.
   */
  method TransferWithMemo(clockMillis: int64, jitter: int32, nonce: int64) returns (t: Transaction)
    ensures t.Snapshot() == Record(Some("0xAAA"), Some("0xBBB"), None, 500, false, None, 0, Some("memo"),
                                   GenTimestamp(clockMillis, jitter), nonce, UnsignedSignature)
  {
    var b := new Builder("0xAAA");
    b := b.Transfer("0xBBB", 500);
    b := b.Extra("memo");
    t := b.Build(clockMillis, jitter, nonce);
  }

  /**
   * `new HVMBuilder("0xAAA").deploy("/path/to/artifact").build()` with an
   * encoder that maps that path to "0xDEADBEEF": a deployment transaction
   * for the HVM carrying exactly the encoder's output, with no value, no
   * extra data, no dry run, unsigned, and stamped with the given readings.
   */
  method DeployArtifact(encodeDeployJar: string -> Result<string, EncodingError>, clockMillis: int64, jitter: int32, nonce: int64)
    returns (t: Transaction)
    requires encodeDeployJar("/path/to/artifact") == Success("0xDEADBEEF")
    ensures t.Snapshot() == Record(Some("0xAAA"), Some(DeployTarget), Some("0xDEADBEEF"), 0, false, Some(HVM), 0, None,
                                   GenTimestamp(clockMillis, jitter), nonce, UnsignedSignature)
  {
    var h := new HVMBuilder("0xAAA");
    var r := h.Deploy("/path/to/artifact", encodeDeployJar);
    assert r == Success(h.base);
    t := r.value.Build(clockMillis, jitter, nonce);
  }

  /**
   * A caller's sequence of calls on one `HVMBuilder`: transfer, deploy (whose
   * exception, if the encoder throws, the caller catches and ignores),
   * extra, simulate and build. The returned record is `Run` of those calls
   * from the HVM start record, so it keeps the sender, the VM type HVM,
   * opcode 0 and the unsigned marker whatever the encoder does.
   */
  method HvmCallSequence(from: string, to: string, value: int64, jarPath: string,
                         encodeDeployJar: string -> Result<string, EncodingError>, memo: string,
                         clockMillis: int64, jitter: int32, nonce: int64)
    returns (t: Transaction)
    ensures t.Snapshot() == Run(HvmStart(from), [Op.Transfer(to, value), Op.Deploy(encodeDeployJar(jarPath)),
                                                 Op.Extra(memo), Op.Simulate, Op.Build(clockMillis, jitter, nonce)])
    ensures t.from == Some(from) && t.vmType == Some(HVM) && t.opCode == 0 && t.signature == UnsignedSignature
  {
    var h := new HVMBuilder(from);
    var start := HvmStart(from);
    ghost var ops: seq<Op> := [];
    assert h.base.transaction.Snapshot() == Run(start, ops);

    var b := h.base.Transfer(to, value);
    RunSnoc(start, ops, Op.Transfer(to, value));
    ops := ops + [Op.Transfer(to, value)];

    var deployed := h.Deploy(jarPath, encodeDeployJar);
    RunSnoc(start, ops, Op.Deploy(encodeDeployJar(jarPath)));
    ops := ops + [Op.Deploy(encodeDeployJar(jarPath))];

    b := b.Extra(memo);
    RunSnoc(start, ops, Op.Extra(memo));
    ops := ops + [Op.Extra(memo)];

    b := b.Simulate();
    RunSnoc(start, ops, Op.Simulate);
    ops := ops + [Op.Simulate];

    t := b.Build(clockMillis, jitter, nonce);
    RunSnoc(start, ops, Op.Build(clockMillis, jitter, nonce));
    ops := ops + [Op.Build(clockMillis, jitter, nonce)];

    assert ops == [Op.Transfer(to, value), Op.Deploy(encodeDeployJar(jarPath)),
                   Op.Extra(memo), Op.Simulate, Op.Build(clockMillis, jitter, nonce)];
    HvmSession(from, ops);
  }

  /**
   * Two `build` calls on one builder return the same object, which then
   * carries the second stamp only; every other field is what the first
   * call returned.
   */
  method BuildTwice(from: string, c1: int64, j1: int32, n1: int64, c2: int64, j2: int32, n2: int64)
    returns (first: Transaction, second: Transaction)
    ensures first == second
    ensures first.Snapshot() == Start(from).(timestamp := GenTimestamp(c2, j2), nonce := n2)
  {
    var b := new Builder(from);
    first := b.Build(c1, j1, n1);
    second := b.Build(c2, j2, n2);
  }
}
