# Transaction builder of the Hyperchain Java SDK, modelled in Dafny

This project models the core of `cn.hyperchain.sdk.transaction.Transaction`. That core is the
transaction record and the builders that fill it in. The three parts are:

- **`Transaction`**: an object with eleven fields. These are the sender `from`, the recipient `to`,
  an encoded `payload`, a `long` `value`, the dry-run flag `simulate`, the `vmType`, an `int`
  `opCode`, free-form `extra` data, the `long` identity stamp (`timestamp`, `nonce`) and a
  `signature`. The signature starts as the marker `"default"`.
- **`Builder`**: owns one staging `Transaction` object. `transfer`, `simulate` and `extra` overwrite
  fields of that object in place and return the builder. `build` stamps `timestamp` and `nonce`
  and returns the staging object itself, not a copy.
- **`HVMBuilder`**: sets `vmType = HVM` when it is constructed. It adds `deploy` and `invoke`.
  Each one runs an external encoder first and then writes `to` and `payload`.

The timestamp is `clockMillis * 1000000 + jitter`, computed in Java `long` arithmetic.

The model has these files:

- `wrappers.dfy`: `Option` (a Java reference that may be null) and `Result` (a call that returns or
  throws).
- `java_ints.dfy`: `int64` and `int32`, and `Wrap64`, which is Java's two's-complement wrap-around of `long`.
- `record.dfy`: the record as a value (`Record`), its defaults, the field names (`Field`) and `Agree`,
  which says two records hold the same value in a given field.
- `identity.dfy`: `GenTimestamp` and what holds of it.
- `staging.dfy`: the builder as a state machine over the record. `Op` is one builder call, `Apply`
  is its effect and `Writes` is the set of fields it assigns. `Run` applies a sequence of calls on
  one builder. A call whose encoder throws leaves the record as it was. A caller may catch that
  exception and go on using the builder, so `Run` does not stop there. A chained Java expression
  does stop at the exception; its effect is `Run` of the calls up to the throwing one. The lemmas
  here cover the frame, last-write-wins, idempotence and session invariants.
- `builders.dfy`: the classes `Transaction`, `Builder` and `HVMBuilder`, with methods that update the
  staging object in place. Each method's postcondition ties the object's new `Snapshot()` to `Apply`
  on its old one. `HvmCallSequence` shows how a sequence of real calls on an `HVMBuilder` is carried to
  `Run`, one call at a time with `RunSnoc`, and then to the session lemma `HvmSession`. Three more
  client methods state whole records for a transfer with a memo and for a deployment, and show
  the aliasing behaviour of `build`.

The clock reading, the `randInt` jitter and the `genNonce` value are parameters of `Build`. Both
encoders are function-valued parameters that return either a payload or an `EncodingError`.

Three behaviours of the code are easy to expect otherwise. The model follows the code each time:

- A builder does not reject an empty or malformed sender. The constructor
  (`Transaction.java:30-33`) does no check, so the model accepts any `from`.
- `timestamp` and `nonce` are not assigned only once. `build` (`Transaction.java:70-74`) restamps
  the same object each time it is called. `BuildTwice` states this, and so does `LastWriteWins` with
  two `Build` calls.
- The record is not immutable once built. `build` returns the builder's own staging object, so later
  calls on the builder change a record that has already been returned.

## Model

| member | source | states |
|---|---|---|
| JavaInts.Wrap64 | src/main/java/cn/hyperchain/sdk/transaction/Transaction.java:118 | the `long` result differs from the exact integer by a multiple of 2^64 and equals it when it is in range |
| JavaInts.WrapUnique | src/main/java/cn/hyperchain/sdk/transaction/Transaction.java:118 | the only `long` congruent to an integer modulo 2^64 is its wrap, so `long` results depend only on the exact value modulo 2^64 |
| Identity.GenTimestamp | src/main/java/cn/hyperchain/sdk/transaction/Transaction.java:117-119 | the stamp is the exact `clockMillis * 1000000 + jitter` wrapped once to a `long`: the two `long` operations wrap like one |
| Identity.TimestampExact | src/main/java/cn/hyperchain/sdk/transaction/Transaction.java:117-118 | with the jitter in [1000, 1000000) and no overflow, the stamp is exactly `clockMillis * 1000000 + jitter`, strictly above `clockMillis * 1000000` and strictly below `(clockMillis + 1) * 1000000` |
| Identity.TimestampsSeparate | src/main/java/cn/hyperchain/sdk/transaction/Transaction.java:117-118 | stamps from earlier milliseconds are smaller whatever the jitters; within one millisecond two stamps are equal exactly when their jitters are |
| Identity.TimestampWrapsAfter2262 | src/main/java/cn/hyperchain/sdk/transaction/Transaction.java:118 | the `long` product wraps: the clock reading 9223372036855 ms gives a negative stamp |
| Staging.Apply | src/main/java/cn/hyperchain/sdk/transaction/Transaction.java:41-106 | a builder call changes no field outside its write set, and a call whose encoder throws changes nothing |
| Staging.Run | src/main/java/cn/hyperchain/sdk/transaction/Transaction.java:41-106 | a sequence of calls on one builder leaves unchanged every field that none of its calls writes |
| Staging.RunSnoc | src/main/java/cn/hyperchain/sdk/transaction/Transaction.java:41-106 | one more call on the builder takes the record `Run` reached to `Apply` of that call, so `Run` follows the calls step by step |
| Staging.Start | src/main/java/cn/hyperchain/sdk/transaction/Transaction.java:30-33 | a plain builder starts from the defaults with sender `from` and no other field changed |
| Staging.HvmStart | src/main/java/cn/hyperchain/sdk/transaction/Transaction.java:77-81 | an HVM builder starts from the plain builder's record with VM type HVM and no other field changed |
| Staging.ApplyOverwrites | src/main/java/cn/hyperchain/sdk/transaction/Transaction.java:41-106 | a call that does not throw overwrites its write set with values that do not depend on the prior record, so two records that agree outside the write set give the same result |
| Staging.LastWriteWins | src/main/java/cn/hyperchain/sdk/transaction/Transaction.java:41-74 | a call whose fields the next call, when it succeeds, all rewrites leaves no trace, e.g. transfer then transfer, or build then build |
| Staging.ExtraTwice | src/main/java/cn/hyperchain/sdk/transaction/Transaction.java:61-64 | `extra(x)` then `extra(y)` gives `extra == y` and every other field as before |
| Staging.NeverWritten | src/main/java/cn/hyperchain/sdk/transaction/Transaction.java:41-106 | no sequence of builder calls changes `from`, `vmType`, `opCode` or `signature` |
| Staging.BuilderSession | src/main/java/cn/hyperchain/sdk/transaction/Transaction.java:25-33 | every record a `Builder(from)` session reaches has sender `from`, no VM type, opcode 0 and the unsigned marker `"default"` |
| Staging.HvmSession | src/main/java/cn/hyperchain/sdk/transaction/Transaction.java:77-81 | every record an `HVMBuilder(from)` session reaches has sender `from`, VM type HVM, opcode 0 and the unsigned marker |
| Staging.SimulateIdempotent | src/main/java/cn/hyperchain/sdk/transaction/Transaction.java:51-54 | calling `simulate()` N >= 1 times gives the same record as calling it once: the flag is true and nothing else changes |
| Staging.FailedCallSkipped | src/main/java/cn/hyperchain/sdk/transaction/Transaction.java:88-106 | a `deploy` or `invoke` whose encoder throws contributes nothing: the sequence of calls has the effect of the same sequence without it |
| Builders.Transaction.constructor | src/main/java/cn/hyperchain/sdk/transaction/Transaction.java:11-25 | a new transaction holds Java's defaults for every field, and the signature `"default"` |
| Builders.Builder.constructor | src/main/java/cn/hyperchain/sdk/transaction/Transaction.java:30-33 | a fresh staging transaction whose sender is `from`, with every other field at its default |
| Builders.Builder.Transfer | src/main/java/cn/hyperchain/sdk/transaction/Transaction.java:41-45 | sets exactly `to` and `value` on the staging object, changes nothing else and returns the same builder |
| Builders.Builder.Simulate | src/main/java/cn/hyperchain/sdk/transaction/Transaction.java:51-54 | sets exactly `simulate = true`, changes nothing else and returns the same builder |
| Builders.Builder.Extra | src/main/java/cn/hyperchain/sdk/transaction/Transaction.java:61-64 | sets exactly `extra`, changes nothing else and returns the same builder |
| Builders.Builder.Build | src/main/java/cn/hyperchain/sdk/transaction/Transaction.java:70-74 | writes only `timestamp` (the value of `GenTimestamp` for the clock and jitter) and `nonce`, and returns the builder's own staging object |
| Builders.HVMBuilder.constructor | src/main/java/cn/hyperchain/sdk/transaction/Transaction.java:78-81 | a fresh base builder and staging transaction with sender `from`, VM type HVM and every other field at its default |
| Builders.HVMBuilder.Deploy | src/main/java/cn/hyperchain/sdk/transaction/Transaction.java:88-93 | on encoder success sets exactly `to = "0x"` and `payload` to the encoder's output and returns the base builder; on encoder failure returns the error and leaves the record unchanged |
| Builders.HVMBuilder.Invoke | src/main/java/cn/hyperchain/sdk/transaction/Transaction.java:101-106 | on encoder success sets exactly `to` to the contract address and `payload` to the encoder's output and returns the base builder; on encoder failure returns the error and leaves the record unchanged |
| Builders.TransferWithMemo | src/main/java/cn/hyperchain/sdk/transaction/Transaction.java:30-74 | `Builder("0xAAA").transfer("0xBBB", 500).extra("memo").build()` yields exactly that sender, recipient, value and memo, with no payload, no dry run, the unsigned marker and the given stamp |
| Builders.DeployArtifact | src/main/java/cn/hyperchain/sdk/transaction/Transaction.java:78-93 | an HVM deployment whose encoder maps the path to `"0xDEADBEEF"` yields exactly sender `"0xAAA"`, `to = "0x"`, that payload, VM type HVM, value 0, no dry run, no extra data, opcode 0, the unsigned marker and the given stamp |
| Builders.HvmCallSequence | src/main/java/cn/hyperchain/sdk/transaction/Transaction.java:41-106 | transfer, a deploy whose exception the caller ignores, extra, simulate and build on one `HVMBuilder` give `Run` of those calls, with sender `from`, VM type HVM, opcode 0 and the unsigned marker whatever the encoder does |
| Builders.BuildTwice | src/main/java/cn/hyperchain/sdk/transaction/Transaction.java:28-74 | two `build` calls on one builder return the same object, which carries only the second stamp |

## Left out

- Logging: the static log4j logger is I/O and no logic uses it.
- `sign()`: it is private and only throws `UnsupportedOperationException`, so no call to it can succeed. It is not modelled as an operation.
- The public getters and setters: the model has only the field writes that the builders make. Setters that outside code calls directly on a built transaction are not modelled. In particular, outside code can still rewrite `from` or `vmType` after `build`.
- Encoders: `Encoder.encodeDeployJar` and `Encoder.encodeInvokeBeanJava` are foreign code that reads jar files and serialises beans. Each is an arbitrary function parameter that returns a payload or an `EncodingError`. `Encoder` is not part of this model.
- `Utils.randInt`, `Utils.genNonce` and `new Date().getTime()` are randomness and the wall clock, so their results are parameters. `Utils` is not part of this model. The jitter bound [1000, 1000000) is assumed, as the precondition `JitterInRange`, only where a lemma needs it. The model makes no claim that stamps or nonces are unique, because that holds only with some probability.
- `VMType`: values other than `HVM` are not shown, so they stand as `Other(name)`. `BaseInvoke` is not shown either, so `Invoke` takes it as a type parameter.
- Null arguments: `from`, `to`, `extra` and `contractAddress` are modelled as non-null strings. A Java caller that passes `null` would store `null` in the field. `jarPath` is never stored; it only reaches the encoder.
- Subclassing: `HVMBuilder extends Builder` becomes composition. An `HVMBuilder` holds its `Builder` as `base`, and the common calls go through `base`. Java's `deploy` and `invoke` return the `HVMBuilder` typed as `Builder`, so they return `base` here.
