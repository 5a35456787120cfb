/** The HTTP handler `rpcRetAll` of cmd/kaspawallet/main.go:40-160.

    Every collaborator the handler calls (the keys file reader, the daemon
    client, mnemonic decryption, the signer) is an input: the outcome it
    would return. The handler itself is `RpcRetAll`, a method over the same
    mutable locals as the Go code; `Handle` describes its result stage by
    stage, and the method is proved equal to it. */
module Kaspawallet {
  import opened Results
  import opened Envelope
  import Strconv

  const SendMoneyPath: string := "/SendMoney"
  const MultisigMessage: string := "Cannot use 'send' command for multisig wallet without all of the keys"
  const AuthFailedText: string := "message authentication failed"

  newtype byte = x: int | 0 <= x < 256

  /** One transaction as the daemon exchanges it: opaque bytes. */
  type TxBytes = seq<byte>

  /** The query parameters `wallet`, `amount` and `password` (main.go:45-47). */
  datatype Query = Query(wallet: string, amount: string, password: string)

  /** The parts of the send configuration the handler reads. */
  datatype SendConfig = SendConfig(
    keysFile: string,
    daemonAddress: string,
    fromAddresses: seq<string>,
    useExistingChangeAddress: bool)

  /** The parts of a loaded keys file the handler reads. */
  datatype KeysFile = KeysFile(
    extendedPublicKeys: seq<string>,
    encryptedMnemonics: seq<string>,
    ecdsa: bool)

  /** A connected daemon client (`pb.KaspawalletdClient`); nil when absent. */
  datatype DaemonClient = DaemonClient

  /** The outcomes the collaborators would return on this request. Sign is
      called once per unsigned transaction, so it is a function of its
      arguments; every other collaborator is called at most once. */
  datatype Collaborators = Collaborators(
    readKeysFile: Outcome<KeysFile>,
    connect: Outcome<DaemonClient>,
    createUnsignedTransactions: Outcome<seq<TxBytes>>,
    decryptMnemonics: Outcome<seq<string>>,
    sign: (seq<string>, TxBytes, bool) -> Outcome<TxBytes>,
    broadcast: Outcome<seq<string>>)

  /** The request sent to the daemon at main.go:77-83. */
  datatype CreateRequest = CreateRequest(
    from: seq<string>,
    address: string,
    amount: Strconv.uint64,
    isSendAll: bool,
    useExistingChangeAddress: bool)

  /** A call the handler made to a collaborator, with what it passed. */
  datatype Call =
    | ReadKeysFile(path: string)
    | Connect(address: string)
    | CreateUnsignedTransactions(request: CreateRequest)
    | DecryptMnemonics(password: string)
    | Sign(index: nat, unsigned: TxBytes)
    | Broadcast(batch: seq<Option<TxBytes>>)

  /** A function registered with `defer`, in registration order. */
  datatype Deferred = TearDown | Cancel | BroadcastCancel

  /** Where a method call on a nil value panics. */
  datatype FaultSite =
    | CreateUnsignedOnNilClient   // main.go:77
    | DecryptOnNilKeysFile        // main.go:89
    | BroadcastOnNilClient        // main.go:126

  /** How the handler ends: it passes `aMsg` (possibly unset) to `rpcRetAny`,
      or it panics; deferred functions run in both cases. */
  datatype Reply = Written(aMsg: Option<HRpcResult>) | Panicked(site: FaultSite)

  /** Everything the handler does that is observable. `signed` is the
      `signedTransactions` slice, whose unfilled slots are nil; `authHint`
      says whether the password hint went to stderr. */
  datatype Handled = Handled(
    calls: seq<Call>,
    deferred: seq<Deferred>,
    authHint: bool,
    signed: seq<Option<TxBytes>>,
    reply: Reply)

  /** The error kinds the handler's `err` may hold. */
  datatype Error = Message(text: string) | Num(e: Strconv.NumError)

  function ErrorText(e: Error): (text: string) {
    match e
    case Message(t) => t
    case Num(n) => Strconv.NumErrorText(n)
  }

  /** Go's `strings.Contains`. */
  predicate Contains(s: string, sub: string)
    decreases |s|
  {
    if |s| < |sub| then false
    else if s[..|sub|] == sub then true
    else |s| > 0 && Contains(s[1..], sub)
  }

  /** `sub` occurs in `s` starting at index `i`. */
  predicate SubAt(s: string, sub: string, i: int) {
    0 <= i && i + |sub| <= |s| && s[i..i + |sub|] == sub
  }

  /** `Contains` is the existence of an occurrence. */
  lemma {:induction false} ContainsAt(s: string, sub: string)
    ensures Contains(s, sub) <==> exists i :: SubAt(s, sub, i)
    decreases |s|
  {
    if |s| >= |sub| {
      if s[..|sub|] == sub {
        assert s[0..|sub|] == s[..|sub|];
        assert SubAt(s, sub, 0);
      } else if |s| > 0 {
        ContainsAt(s[1..], sub);
        if exists i :: SubAt(s[1..], sub, i) {
          var i :| SubAt(s[1..], sub, i);
          assert s[1..][i..i + |sub|] == s[i + 1..i + 1 + |sub|];
          assert SubAt(s, sub, i + 1);
        }
        if exists i :: SubAt(s, sub, i) {
          var i :| SubAt(s, sub, i);
          assert s[0..|sub|] == s[..|sub|];
          assert i != 0;
          assert s[1..][i - 1..i - 1 + |sub|] == s[i..i + |sub|];
          assert SubAt(s[1..], sub, i - 1);
        }
      }
    }
  }

  // ---------------------------------------------------------------------
  // The handler's result, stage by stage
  // ---------------------------------------------------------------------

  /** The error left after reading the keys file and the multisig check
      (main.go:49-55). */
  function KeysError(read: Outcome<KeysFile>): (err: Option<Error>) {
    match read
    case Err(m) => Some(Message(m))
    case Ok(k) =>
      if |k.extendedPublicKeys| > |k.encryptedMnemonics| then Some(Message(MultisigMessage)) else None
  }

  /** Whether the daemon client ends up connected (main.go:60-65). */
  predicate Connected(env: Collaborators) {
    KeysError(env.readKeysFile).None? && env.connect.Ok?
  }

  /** Slot i of `signedTransactions` after Sign was called on transaction i. */
  function Slot(o: Outcome<TxBytes>): (slot: Option<TxBytes>) {
    match o
    case Ok(tx) => Some(tx)
    case Err(_) => None
  }

  /** The signed batch for the unsigned batch `u` (main.go:101-107). */
  function SignAll(sign: (seq<string>, TxBytes, bool) -> Outcome<TxBytes>, mnemonics: seq<string>,
                   ecdsa: bool, u: seq<TxBytes>): (signed: seq<Option<TxBytes>>)
  {
    if u == [] then []
    else SignAll(sign, mnemonics, ecdsa, u[..|u| - 1]) + [Slot(sign(mnemonics, u[|u| - 1], ecdsa))]
  }

  /** The Sign calls made on the unsigned batch `u`, one per index. */
  function SignCalls(u: seq<TxBytes>): (calls: seq<Call>) {
    if u == [] then [] else SignCalls(u[..|u| - 1]) + [Sign(|u| - 1, u[|u| - 1])]
  }

  /** What the handler does on `path`. On `/SendMoney`: the keys stage and
      Connect leave an error that the amount parse then overwrites; a good
      parse after a failed keys or Connect stage reaches the daemon with no
      client; build and decrypt errors stop the chain; Sign and Broadcast
      errors are dropped, so every request that decrypts ends with the
      Result 0 envelope; every other stop leaves `aMsg` unset. */
  function Handle(path: string, q: Query, conf: SendConfig, env: Collaborators): (h: Handled) {
    if path != SendMoneyPath then Handled([], [], false, [], Written(Some(NoProcedure(path))))
    else
      var keysErr := KeysError(env.readKeysFile);
      var connected := Connected(env);
      var calls1 := [ReadKeysFile(conf.keysFile)] + (if keysErr.None? then [Connect(conf.daemonAddress)] else []);
      var deferred1 := (if connected then [TearDown] else []) + [Cancel];
      match Strconv.ParseUintSpec(q.amount)
      case Failed(_) => Handled(calls1, deferred1, false, [], Written(None))
      case Parsed(amount) =>
        if !connected then Handled(calls1, deferred1, false, [], Panicked(CreateUnsignedOnNilClient))
        else
          var request := CreateRequest(conf.fromAddresses, q.wallet, amount, false, conf.useExistingChangeAddress);
          var calls2 := calls1 + [CreateUnsignedTransactions(request)];
          match env.createUnsignedTransactions
          case Err(_) => Handled(calls2, deferred1, false, [], Written(None))
          case Ok(unsigned) =>
            var calls3 := calls2 + [DecryptMnemonics(q.password)];
            match env.decryptMnemonics
            case Err(m) => Handled(calls3, deferred1, Contains(m, AuthFailedText), [], Written(None))
            case Ok(mnemonics) =>
              var signed := SignAll(env.sign, mnemonics, env.readKeysFile.value.ecdsa, unsigned);
              var ids := if env.broadcast.Ok? then env.broadcast.value else [];
              Handled(calls3 + SignCalls(unsigned) + [Broadcast(signed)], deferred1 + [BroadcastCancel],
                      false, signed, Written(Some(Sent(ids))))
  }

  // ---------------------------------------------------------------------
  // The handler as written
  // ---------------------------------------------------------------------

  /** The loop of main.go:101-107: `signedTransactions` is made with one
      nil slot per unsigned transaction, then slot i is filled when Sign of
      transaction i succeeds. Both are returned with the Sign calls made. */
  method SignBatch(sign: (seq<string>, TxBytes, bool) -> Outcome<TxBytes>, mnemonics: seq<string>,
                   ecdsa: bool, unsigned: seq<TxBytes>)
    returns (signedTransactions: seq<Option<TxBytes>>, calls: seq<Call>)
    ensures signedTransactions == SignAll(sign, mnemonics, ecdsa, unsigned)
    ensures calls == SignCalls(unsigned)
  {
    var slots := new Option<TxBytes>[|unsigned|](_ => None);
    calls := [];
    for i := 0 to |unsigned|
      invariant calls == SignCalls(unsigned[..i])
      invariant slots[..i] == SignAll(sign, mnemonics, ecdsa, unsigned[..i])
      invariant forall j :: i <= j < slots.Length ==> slots[j] == None
    {
      assert unsigned[..i + 1][..i] == unsigned[..i];
      calls := calls + [Sign(i, unsigned[i])];
      // main.go:103 `signedTransaction, err := …` shadows the handler's err.
      var signed := sign(mnemonics, unsigned[i], ecdsa);
      ghost var done := slots[..i];
      if signed.Ok? {
        slots[i] := Some(signed.value);
      }
      assert slots[..i] == done && slots[i] == Slot(signed);
      assert slots[..i + 1] == slots[..i] + [slots[i]];
    }
    assert unsigned[..|unsigned|] == unsigned;
    signedTransactions := slots[..];
  }

  /** `rpcRetAll`: the Go handler's locals and guarded reassignments, in
      order. The `/SendMoney` case declares its own `err` at main.go:49, so
      the function-level `err` (main.go:42) that main.go:153 inspects is
      only ever nil. */
  method RpcRetAll(path: string, q: Query, conf: SendConfig, env: Collaborators) returns (h: Handled)
    ensures h == Handle(path, q, conf, env)
  {
    var aMsg: Option<HRpcResult> := None;
    var err: Option<Error> := None;
    var calls: seq<Call> := [];
    var deferred: seq<Deferred> := [];
    var authHint := false;
    var signedTransactions: seq<Option<TxBytes>> := [];
    if path == SendMoneyPath {
      // main.go:49 `keysFile, err := …` shadows the function-level err.
      calls := calls + [ReadKeysFile(conf.keysFile)];
      var keysFile: Option<KeysFile> := if env.readKeysFile.Ok? then Some(env.readKeysFile.value) else None;
      var sendErr: Option<Error> := if env.readKeysFile.Err? then Some(Message(env.readKeysFile.message)) else None;
      if sendErr == None {
        if |keysFile.value.extendedPublicKeys| > |keysFile.value.encryptedMnemonics| {
          sendErr := Some(Message(MultisigMessage));
        }
      }

      var daemonClient: Option<DaemonClient> := None;
      if sendErr == None {
        calls := calls + [Connect(conf.daemonAddress)];
        match env.connect {
          case Ok(c) => daemonClient, sendErr := Some(c), None;
          case Err(m) => daemonClient, sendErr := None, Some(Message(m));
        }
        if sendErr == None {
          deferred := deferred + [TearDown];
        }
      }

      deferred := deferred + [Cancel];

      // main.go:71 assigns err whatever it held before.
      var sendAmountSompi: Strconv.uint64 := 0;
      var parsed := Strconv.ParseUint(q.amount);
      match parsed {
        case Parsed(v) => sendAmountSompi, sendErr := v, None;
        case Failed(e) => sendErr := Some(Num(e));
      }

      var unsignedTransactions: seq<TxBytes> := [];
      if sendErr == None {
        match daemonClient {
          case None =>
            h := Handled(calls, deferred, authHint, signedTransactions, Panicked(CreateUnsignedOnNilClient));
            return;
          case Some(_) =>
            var request := CreateRequest(conf.fromAddresses, q.wallet, sendAmountSompi, false,
                                         conf.useExistingChangeAddress);
            calls := calls + [CreateUnsignedTransactions(request)];
            match env.createUnsignedTransactions {
              case Ok(u) => unsignedTransactions := u;
              case Err(m) => sendErr := Some(Message(m));
            }
        }
      }

      var mnemonics: seq<string> := [];
      if sendErr == None {
        match keysFile {
          case None =>
            h := Handled(calls, deferred, authHint, signedTransactions, Panicked(DecryptOnNilKeysFile));
            return;
          case Some(_) =>
            calls := calls + [DecryptMnemonics(q.password)];
            match env.decryptMnemonics {
              case Ok(m) => mnemonics := m;
              case Err(m) =>
                sendErr := Some(Message(m));
                authHint := Contains(m, AuthFailedText);
            }
        }
      }

      if sendErr == None {
        var ecdsa := keysFile.value.ecdsa;
        var signCalls;
        signedTransactions, signCalls := SignBatch(env.sign, mnemonics, ecdsa, unsignedTransactions);
        calls := calls + signCalls;
      }

      if sendErr == None {
        // A fresh broadcast context; its cancel is deferred.
        deferred := deferred + [BroadcastCancel];
      }

      var respIDs: seq<string> := [];
      if sendErr == None {
        match daemonClient {
          case None =>
            h := Handled(calls, deferred, authHint, signedTransactions, Panicked(BroadcastOnNilClient));
            return;
          case Some(_) =>
            calls := calls + [Broadcast(signedTransactions)];
            // main.go:126 `response, err := …` shadows err again.
            match env.broadcast {
              case Ok(ids) => respIDs := ids;
              case Err(_) =>
            }
        }
      }

      if sendErr == None {
        aMsg := Some(Sent(respIDs));
      }
    } else {
      err := None;
      aMsg := Some(NoProcedure(path));
    }

    match err {
      case Some(e) => aMsg := Some(Failure(ErrorText(e)));
      case None =>
    }
    h := Handled(calls, deferred, authHint, signedTransactions, Written(aMsg));
  }
}
