/** What `rpcRetAll` guarantees, stated over `Kaspawallet.Handle`, which
    `Kaspawallet.RpcRetAll` is proved to compute. */
module KaspawalletProperties {
  import opened Results
  import opened Envelope
  import opened Kaspawallet
  import Strconv

  /** Position of each collaborator in the `/SendMoney` chain. */
  function Rank(c: Call): (r: nat) {
    match c
    case ReadKeysFile(_) => 0
    case Connect(_) => 1
    case CreateUnsignedTransactions(_) => 2
    case DecryptMnemonics(_) => 3
    case Sign(_, _) => 4
    case Broadcast(_) => 5
  }

  /** `a` is made strictly before `b`: an earlier stage, or Sign calls on increasing indices. */
  predicate Precedes(a: Call, b: Call) {
    Rank(a) < Rank(b) || (a.Sign? && b.Sign? && a.index < b.index)
  }

  predicate Ordered(cs: seq<Call>) {
    forall i, j :: 0 <= i < j < |cs| ==> Precedes(cs[i], cs[j])
  }

  predicate NoCallRankedAbove(cs: seq<Call>, r: nat) {
    forall i :: 0 <= i < |cs| ==> Rank(cs[i]) <= r
  }

  /** The chain reached the end of the decrypt stage without an error. */
  predicate Decrypted(q: Query, env: Collaborators) {
    Connected(env) && Strconv.ParseUintSpec(q.amount).Parsed? &&
    env.createUnsignedTransactions.Ok? && env.decryptMnemonics.Ok?
  }

  /** The build request main.go:77-83 sends for this query. */
  function Request(q: Query, conf: SendConfig): (req: CreateRequest) {
    var amount := match Strconv.ParseUintSpec(q.amount)
      case Parsed(v) => v
      case Failed(_) => 0;
    CreateRequest(conf.fromAddresses, q.wallet, amount, false, conf.useExistingChangeAddress)
  }

  /** The single-call stages of `/SendMoney`, in order. */
  function Chain(q: Query, conf: SendConfig): (calls: seq<Call>) {
    [ReadKeysFile(conf.keysFile), Connect(conf.daemonAddress),
     CreateUnsignedTransactions(Request(q, conf)), DecryptMnemonics(q.password)]
  }

  /** The calls on `/SendMoney`: a prefix of the single-call stages, cut
      after the keys stage when it failed, followed once decryption
      succeeded by the Sign calls and one Broadcast. */
  lemma CallsShape(q: Query, conf: SendConfig, env: Collaborators)
    ensures var h := Handle(SendMoneyPath, q, conf, env);
      && (Decrypted(q, env) ==>
            h.calls == Chain(q, conf) + SignCalls(env.createUnsignedTransactions.value) + [Broadcast(h.signed)])
      && (!Decrypted(q, env) ==> 1 <= |h.calls| <= 4 && h.calls == Chain(q, conf)[..|h.calls|])
      && (KeysError(env.readKeysFile).Some? <==> |h.calls| == 1)
  {
    var h := Handle(SendMoneyPath, q, conf, env);
    var c := Chain(q, conf);
    if KeysError(env.readKeysFile).Some? {
      assert h.calls == c[..1];
    } else if Strconv.ParseUintSpec(q.amount).Failed? || !Connected(env) {
      assert h.calls == c[..2];
    } else if env.createUnsignedTransactions.Err? {
      assert h.calls == c[..3];
    } else if env.decryptMnemonics.Err? {
      assert h.calls == c[..4];
    }
  }

  lemma ChainOrdered(q: Query, conf: SendConfig, k: nat)
    requires k <= 4
    ensures Ordered(Chain(q, conf)[..k])
  {
  }

  // ---------------------------------------------------------------------
  // The signing loop
  // ---------------------------------------------------------------------

  /** The signed batch has one slot per unsigned transaction, and slot i
      holds Sign's result for transaction i exactly when Sign succeeded. */
  lemma {:induction false} SignAllAt(sign: (seq<string>, TxBytes, bool) -> Outcome<TxBytes>,
                                     mnemonics: seq<string>, ecdsa: bool, u: seq<TxBytes>, i: nat)
    requires i < |u|
    ensures |SignAll(sign, mnemonics, ecdsa, u)| == |u|
    ensures SignAll(sign, mnemonics, ecdsa, u)[i] == Slot(sign(mnemonics, u[i], ecdsa))
  {
    if i < |u| - 1 {
      SignAllAt(sign, mnemonics, ecdsa, u[..|u| - 1], i);
    } else if |u| > 1 {
      SignAllAt(sign, mnemonics, ecdsa, u[..|u| - 1], 0);
    }
  }

  lemma {:induction false} SignAllLength(sign: (seq<string>, TxBytes, bool) -> Outcome<TxBytes>,
                                         mnemonics: seq<string>, ecdsa: bool, u: seq<TxBytes>)
    ensures |SignAll(sign, mnemonics, ecdsa, u)| == |u|
  {
    if u != [] {
      SignAllLength(sign, mnemonics, ecdsa, u[..|u| - 1]);
    }
  }

  /** Sign is called once per index, in index order, on that index's transaction. */
  lemma {:induction false} SignCallsAt(u: seq<TxBytes>)
    ensures |SignCalls(u)| == |u|
    ensures forall i :: 0 <= i < |u| ==> SignCalls(u)[i] == Sign(i, u[i])
  {
    if u != [] {
      var p := u[..|u| - 1];
      SignCallsAt(p);
      assert forall i :: 0 <= i < |p| ==> p[i] == u[i];
    }
  }

  lemma SignCallsOrdered(u: seq<TxBytes>)
    ensures Ordered(SignCalls(u))
    ensures forall i :: 0 <= i < |SignCalls(u)| ==> Rank(SignCalls(u)[i]) == 4
  {
    SignCallsAt(u);
  }

  lemma OrderedAppend(a: seq<Call>, b: seq<Call>)
    requires Ordered(a) && Ordered(b)
    requires forall i, j :: 0 <= i < |a| && 0 <= j < |b| ==> Precedes(a[i], b[j])
    ensures Ordered(a + b)
  {
    var c := a + b;
    forall i, j | 0 <= i < j < |c| ensures Precedes(c[i], c[j]) {
      if j < |a| {
        assert c[i] == a[i] && c[j] == a[j];
      } else if i >= |a| {
        assert c[i] == b[i - |a|] && c[j] == b[j - |a|];
      } else {
        assert c[i] == a[i] && c[j] == b[j - |a|];
      }
    }
  }

  // ---------------------------------------------------------------------
  // Routing and the envelope
  // ---------------------------------------------------------------------

  /** Any path other than `/SendMoney` gets Result 1, no TxIds and the
      "No rpc procedure found" message, and touches no collaborator. */
  lemma UnknownPath(path: string, q: Query, conf: SendConfig, env: Collaborators)
    requires path != SendMoneyPath
    ensures var h := Handle(path, q, conf, env);
      && h.reply == Written(Some(HRpcResult(1, [], "No rpc procedure found for path " + path)))
      && h.calls == [] && h.deferred == []
  {
  }

  /** On `/SendMoney` the handler never produces a Result 1 envelope: the
      error envelope of main.go:153-158 reads the function-level err, which
      this case never assigns. `aMsg` is set exactly when the chain got
      through decryption, and then it is Result 0 with an empty message. */
  lemma SendMoneyEnvelope(q: Query, conf: SendConfig, env: Collaborators)
    ensures var h := Handle(SendMoneyPath, q, conf, env);
      && (h.reply.Written? && h.reply.aMsg.Some? <==> Decrypted(q, env))
      && (h.reply.Written? && h.reply.aMsg.Some? ==>
            h.reply.aMsg.value.result == 0 && h.reply.aMsg.value.errorMsg == "")
  {
  }

  // ---------------------------------------------------------------------
  // Keys file, multisig check, Connect
  // ---------------------------------------------------------------------

  /** A keys file with more extended public keys than encrypted mnemonics
      yields the multisig error, so Connect is never attempted. */
  lemma MultisigRejected(q: Query, conf: SendConfig, env: Collaborators)
    requires env.readKeysFile.Ok?
    requires |env.readKeysFile.value.extendedPublicKeys| > |env.readKeysFile.value.encryptedMnemonics|
    ensures KeysError(env.readKeysFile) == Some(Message(MultisigMessage))
    ensures var h := Handle(SendMoneyPath, q, conf, env);
      && h.calls[..1] == [ReadKeysFile(conf.keysFile)]
      && (forall i :: 0 <= i < |h.calls| ==> !h.calls[i].Connect?)
      && TearDown !in h.deferred
  {
  }

  /** Connect is attempted exactly when the key read and the multisig check
      left no error; teardown is deferred exactly when Connect succeeded,
      and never more than once. */
  lemma ConnectAndTearDown(q: Query, conf: SendConfig, env: Collaborators)
    ensures var h := Handle(SendMoneyPath, q, conf, env);
      && (Connect(conf.daemonAddress) in h.calls <==> KeysError(env.readKeysFile).None?)
      && (forall i :: 0 <= i < |h.calls| && h.calls[i].Connect? ==> i == 1)
      && multiset(h.deferred)[TearDown] == (if Connected(env) then 1 else 0)
  {
    var h := Handle(SendMoneyPath, q, conf, env);
    CallsShape(q, conf, env);
    CallsInStageOrder(SendMoneyPath, q, conf, env);
    if KeysError(env.readKeysFile).None? {
      assert h.calls[1] == Connect(conf.daemonAddress);
    }
  }

  // ---------------------------------------------------------------------
  // The amount parse
  // ---------------------------------------------------------------------

  /** The parse at main.go:71 overwrites err: once the amount parses, an
      earlier keys, multisig or Connect error is gone, and the daemon is
      called through a nil client. */
  lemma ParseDiscardsEarlierError(q: Query, conf: SendConfig, env: Collaborators)
    requires Strconv.ParseUintSpec(q.amount).Parsed?
    requires !Connected(env)
    ensures Handle(SendMoneyPath, q, conf, env).reply == Panicked(CreateUnsignedOnNilClient)
    ensures NoCallRankedAbove(Handle(SendMoneyPath, q, conf, env).calls, 1)
  {
  }

  /** A failed parse stops the chain: build, decrypt, sign and broadcast are
      never called and `aMsg` stays unset. */
  lemma ParseFailureStops(q: Query, conf: SendConfig, env: Collaborators)
    requires Strconv.ParseUintSpec(q.amount).Failed?
    ensures var h := Handle(SendMoneyPath, q, conf, env);
      && NoCallRankedAbove(h.calls, 1) && h.signed == [] && h.reply == Written(None)
  {
  }

  /** The only panic is the nil client at main.go:77: the keys file is never
      nil at main.go:89 and the client never nil at main.go:126. */
  lemma OnlyBuildSiteFaults(q: Query, conf: SendConfig, env: Collaborators)
    ensures var h := Handle(SendMoneyPath, q, conf, env);
      h.reply.Panicked? <==> Strconv.ParseUintSpec(q.amount).Parsed? && !Connected(env)
    ensures var h := Handle(SendMoneyPath, q, conf, env);
      h.reply.Panicked? ==> h.reply.site == CreateUnsignedOnNilClient
    ensures var h := Handle(SendMoneyPath, q, conf, env);
      DecryptMnemonics(q.password) in h.calls ==> env.readKeysFile.Ok?
  {
    var h := Handle(SendMoneyPath, q, conf, env);
    if !Decrypted(q, env) && DecryptMnemonics(q.password) in h.calls {
      assert h.calls[|h.calls| - 1] == DecryptMnemonics(q.password);
    }
  }

  // ---------------------------------------------------------------------
  // Build and decrypt
  // ---------------------------------------------------------------------

  /** The daemon is asked to build with the parsed amount, the configured
      source addresses and change policy, and `IsSendAll` false. */
  lemma BuildRequest(q: Query, conf: SendConfig, env: Collaborators)
    requires Connected(env) && Strconv.ParseUintSpec(q.amount).Parsed?
    ensures var h := Handle(SendMoneyPath, q, conf, env);
      && |h.calls| >= 3
      && h.calls[2] == CreateUnsignedTransactions(CreateRequest(
           conf.fromAddresses, q.wallet, Strconv.ParseUintSpec(q.amount).value, false,
           conf.useExistingChangeAddress))
      && h.calls[2].request.amount as int == Strconv.DecimalValue(q.amount)
  {
    Strconv.ParseUintAccepts(q.amount);
  }

  /** A build error stops every later stage. */
  lemma BuildFailureStops(q: Query, conf: SendConfig, env: Collaborators)
    requires Connected(env) && Strconv.ParseUintSpec(q.amount).Parsed?
    requires env.createUnsignedTransactions.Err?
    ensures var h := Handle(SendMoneyPath, q, conf, env);
      && NoCallRankedAbove(h.calls, 2) && h.reply == Written(None) && !h.authHint
  {
  }

  /** A decrypt error stops signing and broadcasting. */
  lemma DecryptFailureStops(q: Query, conf: SendConfig, env: Collaborators)
    requires Connected(env) && Strconv.ParseUintSpec(q.amount).Parsed?
    requires env.createUnsignedTransactions.Ok? && env.decryptMnemonics.Err?
    ensures var h := Handle(SendMoneyPath, q, conf, env);
      && h.calls[|h.calls| - 1] == DecryptMnemonics(q.password)
      && NoCallRankedAbove(h.calls, 3) && h.reply == Written(None) && h.signed == []
  {
  }

  /** The password hint goes to stderr exactly when decryption was attempted
      and failed with an error containing "message authentication failed". */
  lemma AuthHint(q: Query, conf: SendConfig, env: Collaborators)
    ensures Handle(SendMoneyPath, q, conf, env).authHint <==>
      && Connected(env) && Strconv.ParseUintSpec(q.amount).Parsed?
      && env.createUnsignedTransactions.Ok? && env.decryptMnemonics.Err?
      && Contains(env.decryptMnemonics.message, AuthFailedText)
  {
  }

  // ---------------------------------------------------------------------
  // Sign and broadcast
  // ---------------------------------------------------------------------

  /** After decryption, Sign is called on every unsigned transaction in
      order; the signed batch keeps the unsigned batch's length, and slot i is
      filled exactly when Sign of transaction i succeeded. A Sign failure
      stops nothing: Broadcast is called once, last, with the whole batch. */
  lemma SignedBatch(q: Query, conf: SendConfig, env: Collaborators)
    requires Decrypted(q, env)
    ensures var h := Handle(SendMoneyPath, q, conf, env);
      var u := env.createUnsignedTransactions.value;
      var m := env.decryptMnemonics.value;
      var ecdsa := env.readKeysFile.value.ecdsa;
      && |h.signed| == |u|
      && (forall i :: 0 <= i < |u| ==> h.signed[i] == Slot(env.sign(m, u[i], ecdsa)))
      && (forall i :: 0 <= i < |u| ==> Sign(i, u[i]) in h.calls)
      && h.calls[|h.calls| - 1] == Broadcast(h.signed)
  {
    var u := env.createUnsignedTransactions.value;
    var m := env.decryptMnemonics.value;
    var ecdsa := env.readKeysFile.value.ecdsa;
    var h := Handle(SendMoneyPath, q, conf, env);
    SignAllLength(env.sign, m, ecdsa, u);
    forall i | 0 <= i < |u| ensures h.signed[i] == Slot(env.sign(m, u[i], ecdsa)) {
      SignAllAt(env.sign, m, ecdsa, u, i);
    }
    SignCallsAt(u);
    var prefix := [ReadKeysFile(conf.keysFile), Connect(conf.daemonAddress),
                   CreateUnsignedTransactions(CreateRequest(conf.fromAddresses, q.wallet,
                     Strconv.ParseUintSpec(q.amount).value, false, conf.useExistingChangeAddress)),
                   DecryptMnemonics(q.password)];
    assert h.calls == prefix + SignCalls(u) + [Broadcast(h.signed)];
    forall i | 0 <= i < |u| ensures Sign(i, u[i]) in h.calls {
      assert h.calls[4 + i] == SignCalls(u)[i];
    }
  }

  /** After decryption the envelope is Result 0 whatever Broadcast does:
      its TxIds are Broadcast's TxIDs in order on success, and empty when
      Broadcast failed, because main.go:126 shadows err. */
  lemma BroadcastOutcome(q: Query, conf: SendConfig, env: Collaborators)
    requires Decrypted(q, env)
    ensures var h := Handle(SendMoneyPath, q, conf, env);
      && (env.broadcast.Ok? ==> h.reply == Written(Some(HRpcResult(0, env.broadcast.value, ""))))
      && (env.broadcast.Err? ==> h.reply == Written(Some(HRpcResult(0, [], ""))))
      && h.deferred[|h.deferred| - 1] == BroadcastCancel
  {
  }

  /** Collaborators are called in the order of the chain, each stage at most
      once and Sign at most once per index; hence Broadcast is called at most
      once. */
  lemma CallsInStageOrder(path: string, q: Query, conf: SendConfig, env: Collaborators)
    ensures Ordered(Handle(path, q, conf, env).calls)
    ensures forall i, j :: 0 <= i < j < |Handle(path, q, conf, env).calls| ==>
      !(Handle(path, q, conf, env).calls[i].Broadcast? && Handle(path, q, conf, env).calls[j].Broadcast?)
  {
    var h := Handle(path, q, conf, env);
    if path == SendMoneyPath {
      CallsShape(q, conf, env);
      if Decrypted(q, env) {
        var u := env.createUnsignedTransactions.value;
        var c := Chain(q, conf);
        ChainOrdered(q, conf, 4);
        assert c[..4] == c;
        SignCallsOrdered(u);
        OrderedAppend(c, SignCalls(u));
        OrderedAppend(c + SignCalls(u), [Broadcast(h.signed)]);
      } else {
        ChainOrdered(q, conf, |h.calls|);
      }
    }
  }

  // ---------------------------------------------------------------------
  // Scenarios
  // ---------------------------------------------------------------------

  /** `/Frobnicate` is not routed. */
  lemma ScenarioUnknownOperation(q: Query, conf: SendConfig, env: Collaborators)
    ensures Handle("/Frobnicate", q, conf, env).reply ==
      Written(Some(HRpcResult(1, [], "No rpc procedure found for path /Frobnicate")))
  {
    assert "/Frobnicate"[1] != SendMoneyPath[1];
    assert NoProcedurePrefix + "/Frobnicate" == "No rpc procedure found for path /Frobnicate";
  }

  /** Amount "500000000", every collaborator succeeding and two unsigned
      transactions: Sign is called twice and both ids are reported. */
  lemma ScenarioTwoTransactions(q: Query, conf: SendConfig, env: Collaborators, t0: TxBytes, t1: TxBytes,
                                id0: string, id1: string)
    requires q.amount == "500000000"
    requires Connected(env)
    requires env.createUnsignedTransactions == Ok([t0, t1])
    requires env.decryptMnemonics.Ok?
    requires env.broadcast == Ok([id0, id1])
    ensures var h := Handle(SendMoneyPath, q, conf, env);
      && h.reply == Written(Some(HRpcResult(0, [id0, id1], "")))
      && |h.calls| == 7
      && h.calls[4..6] == [Sign(0, t0), Sign(1, t1)]
      && h.deferred == [TearDown, Cancel, BroadcastCancel]
      && h.calls[2].request.amount == 500000000
  {
    ParseFormatRoundTripAt500000000();
    var h := Handle(SendMoneyPath, q, conf, env);
    SignCallsAt([t0, t1]);
    assert h.calls[4..6] == SignCalls([t0, t1]);
  }

  lemma ParseFormatRoundTripAt500000000()
    ensures Strconv.ParseUintSpec("500000000") == Strconv.Parsed(500000000)
  {
    Strconv.ParseFormatRoundTrip(500000000);
    assert Strconv.FormatUint(500000000) == "500000000";
  }

  /** Sign failing on the second transaction does not stop the send: the
      batch holds a nil second slot and is broadcast anyway. */
  lemma ScenarioSecondSignFails(q: Query, conf: SendConfig, env: Collaborators, t0: TxBytes, t1: TxBytes,
                                s0: TxBytes)
    requires Decrypted(q, env)
    requires env.createUnsignedTransactions == Ok([t0, t1])
    requires env.sign(env.decryptMnemonics.value, t0, env.readKeysFile.value.ecdsa) == Ok(s0)
    requires env.sign(env.decryptMnemonics.value, t1, env.readKeysFile.value.ecdsa).Err?
    ensures var h := Handle(SendMoneyPath, q, conf, env);
      && h.signed == [Some(s0), None]
      && Broadcast([Some(s0), None]) in h.calls
      && h.reply.Written? && h.reply.aMsg.Some? && h.reply.aMsg.value.result == 0
  {
    SignedBatch(q, conf, env);
    var h := Handle(SendMoneyPath, q, conf, env);
    assert h.signed == [Some(s0), None];
    assert h.calls[|h.calls| - 1] == Broadcast(h.signed);
  }

  /** Amount "not-a-number": the daemon is never asked to build, yet Connect
      has already run when the keys stage succeeded. */
  lemma ScenarioNotANumber(q: Query, conf: SendConfig, env: Collaborators)
    requires q.amount == "not-a-number"
    ensures var h := Handle(SendMoneyPath, q, conf, env);
      && h.reply == Written(None)
      && NoCallRankedAbove(h.calls, 1)
      && (Connect(conf.daemonAddress) in h.calls <==> KeysError(env.readKeysFile).None?)
  {
    assert Strconv.DigitRun("not-a-number") == 0;
    assert "not-a-number"[..0] == [];
    ConnectAndTearDown(q, conf, env);
  }
}
