# kaspawallet HTTP send handler, modelled in Dafny

This project models `rpcRetAll`, the HTTP handler of the kaspawallet
command (cmd/kaspawallet/main.go:40-160), and the `hRpcResult` reply
envelope (main.go:22-26). On the path `/SendMoney` the handler runs the
send stages in order: read the keys file, check that a multisig wallet
has all its keys, connect to the wallet daemon, parse the amount, ask the
daemon for unsigned transactions, decrypt the mnemonics, sign each
transaction, and broadcast. Every other path gets a "No rpc procedure
found" envelope.

The model follows the code as written, error threading included:

- `keysFile, err := …` at main.go:49 declares a new `err` for the whole
  `/SendMoney` case. The function-level `err` (main.go:42) that main.go:153
  inspects is therefore never set, and the Result 1 envelope of
  main.go:153-158 never applies.
- The amount parse at main.go:71 assigns `err` whatever it held. A keys
  file, multisig or Connect error is dropped as soon as the amount parses.
  The handler then calls the daemon through a nil client, which the model
  records as a panic (`Panicked(CreateUnsignedOnNilClient)`).
- `err` is declared again inside the sign loop (main.go:103) and the
  broadcast block (main.go:126). A Sign failure leaves its slot nil and
  does not stop the broadcast. A Broadcast failure still ends in the
  Result 0 envelope, with no transaction ids.
- Whenever the handler stops with `err` set, `aMsg` stays unset (`None`).

## Files

- `results.dfy` (module `Results`): `Option` for Go values that may be nil, and `Outcome` for a collaborator's `(value, error)` result.
- `strconv.dfy` (module `Strconv`): `strconv.ParseUint(s, 10, 64)`. The method `ParseUint` follows Go's one-pass algorithm over uint64 arithmetic. It is proved equal to the closed form `ParseUintSpec`. Parsing undoes `FormatUint`.
- `envelope.dfy` (module `Envelope`): `hRpcResult` and its three constructions.
- `kaspawallet.dfy` (module `Kaspawallet`): the handler's inputs and observable effects. `Handle` describes the handler's result stage by stage. `RpcRetAll` is the handler as an imperative method over the Go locals, and `SignBatch` is its sign loop over an array. Both methods are proved to compute the closed forms.
- `properties.dfy` (module `KaspawalletProperties`): lemmas about `Handle`, one per property of the handler, plus the scenarios below.

What the model records for each request (`Kaspawallet.Handled`):

- the collaborator calls, in order, with their arguments (a Sign call records only its index and unsigned transaction; the mnemonics and ECDSA flag it is also passed appear only as arguments of `Collaborators.sign`);
- the functions registered with `defer` (`TearDown`, `Cancel`, `BroadcastCancel`);
- whether the password hint went to stderr;
- the `signedTransactions` slice, where nil slots are `None`;
- how the handler ends: the final `aMsg`, or the nil-value panic and where it happened.

Collaborators are inputs (`Kaspawallet.Collaborators`). `keys.ReadKeysFile`,
`client.Connect`, `CreateUnsignedTransactions`, `DecryptMnemonics` and
`Broadcast` are each one success value or one error message. They are
called at most once each. `libkaspawallet.Sign` is a total function from
(mnemonics, unsigned transaction, ECDSA flag) to an outcome.

Configuration is a parameter (`SendConfig`). In the code it is the global
`sconf`. The assignment of `sconf` at main.go:173 is commented out, so on
a real request `sconf` is nil and main.go:49 would dereference it. The
model passes the configuration explicitly and does not model that
dereference.

### Behaviour worth knowing

- A failed amount parse, build or decryption leaves `aMsg` unset, so the reply body is JSON `null` (`ParseFailureStops`, `BuildFailureStops`, `DecryptFailureStops`). No `/SendMoney` request gets a Result 1 envelope (`SendMoneyEnvelope`).
- After a keys, multisig or Connect failure, a parseable amount makes the handler panic at main.go:77, and nothing is written (`ParseDiscardsEarlierError`).
- The amount is parsed after Connect, so a request with a malformed amount may already have connected (`ScenarioNotANumber`).
- A Sign failure leaves its slot nil and the batch is still broadcast (`ScenarioSecondSignFails`).
- A Broadcast failure still produces the Result 0 envelope, with no ids (`BroadcastOutcome`).
- The unknown-path message is exactly "No rpc procedure found for path " followed by the path (`UnknownPath`).

## Model

| member | source | states |
|---|---|---|
| `Kaspawallet.RpcRetAll` | cmd/kaspawallet/main.go:40-160 | The handler, run over its mutable locals, produces exactly the calls, defers, hint, signed batch and reply that `Handle` describes for every path, query, configuration and collaborator outcome. |
| `Kaspawallet.SignBatch` | cmd/kaspawallet/main.go:98-107 | The sign loop fills a slice of one nil slot per unsigned transaction. It calls Sign once per index, in order, and sets slot i only when Sign succeeds. The result equals `SignAll` and the calls equal `SignCalls`. |
| `Strconv.ParseUint` | cmd/kaspawallet/main.go:71 | Go's one-pass base-10, 64-bit parse: the empty string is a syntax error, an overflow is a range error even when a non-digit follows, and any other non-digit is a syntax error. Proved equal to `ParseUintSpec`. |
| `Strconv.ParseUintAccepts` | cmd/kaspawallet/main.go:71 | The parse succeeds exactly on non-empty strings of ASCII digits, with no sign, whose value is at most 2^64-1. On success it returns that value. |
| `Strconv.ParseFormatRoundTrip` | cmd/kaspawallet/main.go:71 | Every uint64 value, written in decimal, parses back to itself. |
| `Strconv.RangeBeforeSyntax` | cmd/kaspawallet/main.go:71 | An overflowing run of leading digits is reported as a range error whatever follows it. |
| `KaspawalletProperties.UnknownPath` | cmd/kaspawallet/main.go:145-150 | A path other than `/SendMoney` gets Result 1, no TxIds and ErrorMsg exactly "No rpc procedure found for path " followed by the path. No collaborator is called and nothing is deferred. |
| `KaspawalletProperties.SendMoneyEnvelope` | cmd/kaspawallet/main.go:137-158 | On `/SendMoney`, `aMsg` is set exactly when the chain got through decryption with no error, and then it is Result 0 with ErrorMsg "". The Result 1 error envelope never applies. |
| `KaspawalletProperties.MultisigRejected` | cmd/kaspawallet/main.go:49-55 | A keys file with more extended public keys than encrypted mnemonics gives the multisig error. Connect is then never called and no teardown is deferred. |
| `KaspawalletProperties.ConnectAndTearDown` | cmd/kaspawallet/main.go:57-65 | Connect is called exactly when the key read and the multisig check left no error, and only as the second call. Teardown is deferred exactly once when Connect succeeded, and never otherwise. |
| `KaspawalletProperties.ParseDiscardsEarlierError` | cmd/kaspawallet/main.go:70-77 | If the amount parses after a keys, multisig or Connect error, that error is gone. The handler panics calling the daemon through a nil client, having made no call past Connect. |
| `KaspawalletProperties.ParseFailureStops` | cmd/kaspawallet/main.go:70-75 | A failed parse means build, decrypt, sign and broadcast are never called, the signed batch is empty and `aMsg` stays unset. |
| `KaspawalletProperties.OnlyBuildSiteFaults` | cmd/kaspawallet/main.go:75-126 | The handler panics exactly when the amount parses and the client is not connected, and then always at the build call. Decryption is only reached with a loaded keys file, and Broadcast only with a client. |
| `KaspawalletProperties.BuildRequest` | cmd/kaspawallet/main.go:75-84 | The build request carries the configured source addresses, the wallet address, the parsed amount, IsSendAll false and the configured change-address policy. |
| `KaspawalletProperties.BuildFailureStops` | cmd/kaspawallet/main.go:75-88 | A build error stops every later stage: no decrypt, Sign or Broadcast call, no hint, and `aMsg` unset. |
| `KaspawalletProperties.DecryptFailureStops` | cmd/kaspawallet/main.go:86-100 | A decrypt error makes decryption the last call. Nothing is signed or broadcast and `aMsg` stays unset. |
| `Kaspawallet.ContainsAt` | cmd/kaspawallet/main.go:91 | `strings.Contains(s, sub)` holds if and only if `sub` occurs in `s` at some index i, that is `s[i..i + |sub|] == sub`. |
| `KaspawalletProperties.AuthHint` | cmd/kaspawallet/main.go:88-96 | The password hint is emitted if and only if decryption was attempted and failed with an error text containing "message authentication failed". |
| `KaspawalletProperties.SignedBatch` | cmd/kaspawallet/main.go:98-108 | After decryption the signed batch has the unsigned batch's length. Slot i holds Sign's output exactly when Sign of transaction i succeeded, and Sign is called on every index. Broadcast is the last call, with the whole batch. |
| `KaspawalletProperties.SignAllAt` | cmd/kaspawallet/main.go:100-107 | Slot i of the signed batch is Sign's result on unsigned transaction i when that result is a success, and nil otherwise. |
| `KaspawalletProperties.SignCallsAt` | cmd/kaspawallet/main.go:102-103 | Sign call i is made on unsigned transaction i, one call per transaction. |
| `KaspawalletProperties.BroadcastOutcome` | cmd/kaspawallet/main.go:110-143 | After decryption the envelope is Result 0. Its TxIds are Broadcast's ids in order when Broadcast succeeds, and empty when it fails. A fresh broadcast context's cancel is the last function deferred. |
| `KaspawalletProperties.CallsShape` | cmd/kaspawallet/main.go:49-135 | The calls are a prefix of read, Connect, build, decrypt, cut after the read when the keys stage failed. Once decryption succeeds they continue with the Sign calls and a single Broadcast of the signed batch. |
| `KaspawalletProperties.CallsInStageOrder` | cmd/kaspawallet/main.go:49-135 | Collaborators are called in chain order, each stage at most once, Sign at most once per index in increasing order, and Broadcast at most once. |
| `KaspawalletProperties.ScenarioUnknownOperation` | cmd/kaspawallet/main.go:145-150 | `/Frobnicate` gets Result 1, no TxIds and "No rpc procedure found for path /Frobnicate". |
| `KaspawalletProperties.ScenarioTwoTransactions` | cmd/kaspawallet/main.go:70-143 | Amount "500000000" with every collaborator succeeding on two unsigned transactions: the daemon gets amount 500000000, exactly seven calls are made of which calls 4 and 5 are the two Sign calls, the defers are teardown, cancel and broadcast cancel, and both ids are reported with Result 0. |
| `KaspawalletProperties.ScenarioSecondSignFails` | cmd/kaspawallet/main.go:100-135 | When Sign fails on the second of two transactions, the batch is broadcast with a nil second slot and the reply is still Result 0. |
| `KaspawalletProperties.ScenarioNotANumber` | cmd/kaspawallet/main.go:57-77 | Amount "not-a-number" never reaches the build call and leaves `aMsg` unset. Connect has still been called whenever the keys stage succeeded. |

## Left out

- HTTP serving (`startHttp`, main.go:162-166), query-string extraction (main.go:45-47), and JSON marshalling and writing in `rpcRetAny` (main.go:28-38): library I/O. The query values are inputs, and the handler ends with the `aMsg` it would pass to `rpcRetAny`.
- Nil and empty slices are not distinguished. In JSON a nil `TxIds` is `null` and an empty one is `[]`; the model has only `[]`.
- Context deadlines and cancellation (main.go:67-68, 110-121): wall-clock behaviour. The model records only that the first context's cancel is always deferred, and that a fresh broadcast context's cancel is deferred only when `err` is nil.
- The goroutine launch and concurrent startup in `main` (main.go:168-175), and the sub-command switch (main.go:177-208), which only forwards to handlers that are not part of this model.
- The nil `sconf` dereference at main.go:49, and the `sconf.NetParams()` argument to `ReadKeysFile` and `Sign`: configuration is a parameter. The network parameters are folded into the collaborator outcomes.
- The keys-file format, mnemonic decryption, signing cryptography and the gRPC daemon client: these are calls into code that is not part of this model, so only their outcomes are represented.
- `keys.ReadKeysFile` and `client.Connect` are assumed to return a nil value together with an error. The Connect half of this assumption decides the one reachable panic: after a Connect failure with a parseable amount, the build at main.go:77 goes through a nil client and panics (`ParseDiscardsEarlierError`, `OnlyBuildSiteFaults`). If Connect returned a usable client alongside its error, main.go:77 would instead call CreateUnsignedTransactions on it. After a keys or multisig failure the client stays nil whatever Connect would return, so that panic does not depend on the assumption. The ReadKeysFile half only matters at main.go:89, which is unreachable either way.
- `Collaborators.sign`: Sign is treated as deterministic, a function of its mnemonics, transaction and ECDSA flag. Two equal unsigned transactions in one batch therefore always get equal slots; a run where one copy signs and the other fails is not represented.
- stdout progress messages (main.go:115, 128-133): output only. The stderr password hint is recorded.
- `Strconv.NumErrorText`: it does not model `strconv.Quote`'s escaping of the input. The handler never reports that text.
- `Strconv.ParseUint`: it returns no value alongside an error; Go returns 0 or the maximum value there. The handler never reads that value.
