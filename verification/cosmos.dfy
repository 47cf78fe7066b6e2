/** Dispatch of one transfer on the Cosmos ledger (util/cosmos.js): allocate a
    sequence number from the persisted counter, sign a `StdTx` with it and
    broadcast; on failure re-read the account's sequence from the node and
    retry, at most ten more times after the first retry; then raise the
    counter to the sequence that went through.

    The node is a script of replies consumed in order: account-info queries
    (`/auth/accounts/<address>`) and broadcasts (`POST /txs`). A call made
    after its script is used up fails as a transport error would. Sleeps are
    no-ops. The signer and the canonical JSON serialiser are parameters. */
module CosmosDispatch {
  import opened Js
  import opened Store
  import opened SequenceCounter

  const RetryLimit: nat := 10
  const CosmosGas := "200000"
  const CosmosDenom := "nanolike"
  const CosmosChainId := ""
  const MsgSendType := "cosmos-sdk/MsgSend"
  const PubKeyType := "tendermint/PubKeySecp256k1"
  const RetryLimitExceeded := "Retry limit exceeds"

  /** Address routing: a wallet belongs to this ledger when it starts with "cosmos". */
  predicate IsCosmosWallet(wallet: string)
  {
    StartsWith(wallet, "cosmos")
  }

  /** Routing is unambiguous: an Ethereum address ("0x…") is never taken for a
      Cosmos one, while every bech32 address with the "cosmos" prefix is. */
  lemma {:induction false} RoutingIsDisjoint(wallet: string, rest: string)
    ensures StartsWith(wallet, "0x") ==> !IsCosmosWallet(wallet)
    ensures IsCosmosWallet("cosmos1" + rest)
  {
    if StartsWith(wallet, "0x") {
      assert wallet[0] == "0x"[0] == '0';
      assert !IsCosmosWallet(wallet) by {
        if |wallet| >= 6 {
          assert wallet[..6][0] == wallet[0];
          assert "cosmos"[0] == 'c';
        }
      }
    }
    assert ("cosmos1" + rest)[..6] == "cosmos";
  }

  /** The `value` of an account-info reply; the node sends the sequence as a string. */
  datatype AccountInfo = AccountInfo(accountNumber: string, sequence: string)

  /** A broadcast reply: a transport failure, or a response body with its
      `code`, `raw_log` and `txhash` fields. */
  datatype BroadcastReply = TransportError(message: string) | TxResponse(code: JsValue, rawLog: string, txhash: JsValue)

  datatype Coin = Coin(denom: string, amount: string)
  datatype MsgSend = MsgSend(msgType: string, fromAddress: string, toAddress: string, amount: seq<Coin>)
  /** A fee; `amount == None` is JSON `null`. */
  datatype StdFee = StdFee(amount: Option<seq<Coin>>, gas: string)
  /** The document that is serialised and signed. */
  datatype SignDoc = SignDoc(fee: StdFee, msgs: seq<MsgSend>, chainId: string, accountNumber: string,
                             sequence: string, memo: string)
  datatype PubKey = PubKey(keyType: string, value: string)
  datatype StdSignature = StdSignature(signature: string, accountNumber: string, sequence: string, pubKey: PubKey)
  datatype StdTx = StdTx(msg: seq<MsgSend>, fee: StdFee, memo: string, signatures: seq<StdSignature>)

  /** The signer's output, both parts already base64-encoded. */
  datatype Signature = Signature(signature: string, publicKey: string)
  /** The key pair: its bech32 address, the secp256k1 signer over the SHA-256 of
      a message, and the canonical JSON serialiser. */
  datatype Signer = Signer(address: string, sign: string -> Signature, stringify: SignDoc -> string)

  /** The event published when the fallback or the reconciliation fails.
      `txSequence == None` is NaN. */
  datatype CosmosError = CosmosError(fromWallet: string, txHash: JsValue, txSequence: Option<int>, error: string)

  /** What `sendTransactionWithLoop` resolves with; `pendingCount == None` is NaN. */
  datatype CosmosReport = CosmosReport(tx: StdTx, txHash: JsValue, gas: string, delegatorAddress: string,
                                       pendingCount: Option<int>)

  datatype CosmosOutcome = Sent(report: CosmosReport) | Threw(error: JsError, published: Option<CosmosError>)

  function NextInfo(infos: seq<Result<AccountInfo, string>>): Result<AccountInfo, string>
  {
    if infos == [] then Failure(NoReply) else infos[0]
  }

  function NextBroadcast(replies: seq<BroadcastReply>): BroadcastReply
  {
    if replies == [] then TransportError(NoReply) else replies[0]
  }

  /** `sendTransaction`: a transport failure rejects; a response whose `code`
      is truthy rejects with its `raw_log`; otherwise the result is `txhash`. */
  function SendTransaction(reply: BroadcastReply): (r: Result<JsValue, string>)
    ensures r.Failure? <==> reply.TransportError? || Truthy(reply.code)
    ensures reply.TxResponse? && Truthy(reply.code) ==> r == Failure(reply.rawLog)
    ensures r.Success? ==> r.value == reply.txhash
  {
    match reply
    case TransportError(m) => Failure(m)
    case TxResponse(code, rawLog, txhash) => if Truthy(code) then Failure(rawLog) else Success(txhash)
  }

  /** `resendTransaction(payload, txHash)`: true exactly when the node answers
      with the expected hash, whatever the response code says. */
  function ResendTransaction(reply: BroadcastReply, txHash: string): (r: Result<bool, string>)
    ensures r.Failure? <==> reply.TransportError?
    ensures r == Success(true) <==> reply.TxResponse? && reply.txhash == Str(txHash)
  {
    match reply
    case TransportError(m) => Failure(m)
    case TxResponse(_, _, txhash) => Success(txhash == Str(txHash))
  }

  /** The sign document for a transaction: the same messages and memo, the fee
      with an empty amount list, the chain id, account number and sequence. */
  function SignDocFor(tx: StdTx, accountNumber: string, sequence: string): SignDoc
  {
    SignDoc(StdFee(Some([]), tx.fee.gas), tx.msg, CosmosChainId, accountNumber, sequence, tx.memo)
  }

  /** What `signTransaction` builds: one `MsgSend` of `value` nanolike from the
      signer to `toAddress`, a null fee amount, an empty memo, and one signature
      over the sign document that carries that document's account number and
      sequence. */
  predicate SignedTransfer(tx: StdTx, signer: Signer, toAddress: string, value: nat, sequence: string, gas: string,
                           accountNumber: string)
  {
    var doc := SignDocFor(tx, accountNumber, sequence);
    var signed := signer.sign(signer.stringify(doc));
    && tx.msg == [MsgSend(MsgSendType, signer.address, toAddress, [Coin(CosmosDenom, NatToDecimal(value))])]
    && tx.fee == StdFee(None, gas) && tx.memo == ""
    && tx.signatures == [StdSignature(signed.signature, accountNumber, sequence, PubKey(PubKeyType, signed.publicKey))]
  }

  /** `signTransaction(toAddress, value, sequence, gas)`, with the account-info
      reply it fetches for the account number: fails exactly when that query
      fails. */
  function SignTransaction(signer: Signer, toAddress: string, value: nat, sequence: string, gas: string,
                           info: Result<AccountInfo, string>): (r: Result<StdTx, string>)
    ensures r.Failure? <==> info.Failure?
    ensures r.Failure? ==> r.error == info.error
    ensures r.Success? ==> SignedTransfer(r.value, signer, toAddress, value, sequence, gas, info.value.accountNumber)
  {
    match info
    case Failure(m) => Failure(m)
    case Success(account) =>
      var msgSend := MsgSend(MsgSendType, signer.address, toAddress, [Coin(CosmosDenom, NatToDecimal(value))]);
      var unsigned := StdTx([msgSend], StdFee(None, gas), "", []);
      var signed := signer.sign(signer.stringify(SignDocFor(unsigned, account.accountNumber, sequence)));
      Success(unsigned.(signatures := [StdSignature(signed.signature, account.accountNumber, sequence,
                                                    PubKey(PubKeyType, signed.publicKey))]))
  }

  /** A broadcast reply that yields a hash. */
  predicate Accepted(reply: BroadcastReply)
  {
    reply.TxResponse? && !Truthy(reply.code) && Truthy(reply.txhash)
  }

  /** The loop variables of `sendTransactionWithLoop` (`txHash`, `sequence`,
      `tx`) and the replies still to come. `sequence == None` is `undefined`. */
  datatype LoopState = LoopState(txHash: JsValue, sequence: Option<string>, tx: StdTx,
                                 infos: seq<Result<AccountInfo, string>>, replies: seq<BroadcastReply>)

  /** One pass of the try block inside the retry loop: read the account
      sequence, sign with it, broadcast. A failing step only ends the pass. */
  function Resend(signer: Signer, toAddress: string, value: nat, gas: string, s: LoopState): (r: LoopState)
    ensures r.replies == s.replies || r.replies == Rest(s.replies)
  {
    match NextInfo(s.infos)
    case Failure(_) => s.(infos := Rest(s.infos))
    case Success(account) =>
      var infos := Rest(s.infos);
      match SignTransaction(signer, toAddress, value, account.sequence, gas, NextInfo(infos))
      case Failure(_) => s.(sequence := Some(account.sequence), infos := Rest(infos))
      case Success(tx) =>
        match SendTransaction(NextBroadcast(s.replies))
        case Failure(_) => LoopState(s.txHash, Some(account.sequence), tx, Rest(infos), Rest(s.replies))
        case Success(h) => LoopState(h, Some(account.sequence), tx, Rest(infos), Rest(s.replies))
  }

  /** How the retry loop ends: the passes it made, its final state, and its
      error when it gave up. */
  datatype LoopEnd = LoopEnd(passes: nat, last: LoopState, error: Option<string>)

  /** The `while (!txHash)` retry loop with `retryCount` failed passes already
      counted. It gives up with "Retry limit exceeds" once more than
      `RetryLimit` passes have failed; when it succeeds after at least one
      pass, the transaction it holds was signed with the sequence it holds. */
  function RetryLoop(signer: Signer, toAddress: string, value: nat, gas: string, s: LoopState, retryCount: nat): (r: LoopEnd)
    requires retryCount <= RetryLimit
    ensures r.error.None? <==> Truthy(r.last.txHash)
    ensures r.error.Some? ==> r.error.value == RetryLimitExceeded
    ensures r.passes <= RetryLimit + 1 - retryCount
    ensures r.passes == 0 <==> Truthy(s.txHash)
    ensures r.passes == 0 ==> r.last == s
    decreases RetryLimit - retryCount
  {
    if Truthy(s.txHash) then LoopEnd(0, s, None)
    else
      var next := Resend(signer, toAddress, value, gas, s);
      if Truthy(next.txHash) then LoopEnd(1, next, None)
      else if retryCount + 1 > RetryLimit then LoopEnd(1, next, Some(RetryLimitExceeded))
      else
        var e := RetryLoop(signer, toAddress, value, gas, next, retryCount + 1);
        e.(passes := e.passes + 1)
  }

  /** A pass yields a hash only from an accepted broadcast, and then holds a
      transaction signed with the sequence it read. */
  lemma ResendSigned(signer: Signer, toAddress: string, value: nat, gas: string, s: LoopState)
    requires !Truthy(s.txHash)
    ensures var r := Resend(signer, toAddress, value, gas, s);
      Truthy(r.txHash) ==>
        Accepted(NextBroadcast(s.replies)) &&
        r.sequence.Some? && |r.tx.signatures| == 1 && r.tx.signatures[0].sequence == r.sequence.value
  {
  }

  /** What a pass keeps and what it reads. A failed account-info query ends
      it with only that reply consumed. Otherwise `sequence` takes the
      sequence the node reported, even when the signing that follows fails;
      a signing that succeeds replaces `tx` with a transfer signed with that
      sequence, and only then is a broadcast made. */
  lemma ResendReadsSequence(signer: Signer, toAddress: string, value: nat, gas: string, s: LoopState)
    ensures var r := Resend(signer, toAddress, value, gas, s);
      && (NextInfo(s.infos).Failure? ==> r == s.(infos := Rest(s.infos)))
      && (NextInfo(s.infos).Success? ==>
            var sequence := NextInfo(s.infos).value.sequence;
            var second := NextInfo(Rest(s.infos));
            && r.sequence == Some(sequence)
            && r.infos == Rest(Rest(s.infos))
            && (second.Failure? ==> r.tx == s.tx && r.txHash == s.txHash && r.replies == s.replies)
            && (second.Success? ==>
                  && SignedTransfer(r.tx, signer, toAddress, value, sequence, gas, second.value.accountNumber)
                  && |r.tx.signatures| == 1 && r.tx.signatures[0].sequence == sequence
                  && r.replies == Rest(s.replies)))
  {
  }

  /** When the loop succeeds after at least one pass, the transaction it holds
      was signed with the sequence it holds. */
  lemma {:induction false} RetryLoopSigned(signer: Signer, toAddress: string, value: nat, gas: string,
                                           s: LoopState, retryCount: nat)
    requires retryCount <= RetryLimit
    ensures var r := RetryLoop(signer, toAddress, value, gas, s, retryCount);
      r.error.None? && r.passes > 0 ==>
        r.last.sequence.Some? && |r.last.tx.signatures| == 1 && r.last.tx.signatures[0].sequence == r.last.sequence.value
    decreases RetryLimit - retryCount
  {
    if !Truthy(s.txHash) {
      var next := Resend(signer, toAddress, value, gas, s);
      ResendSigned(signer, toAddress, value, gas, s);
      if !Truthy(next.txHash) && retryCount + 1 <= RetryLimit {
        RetryLoopSigned(signer, toAddress, value, gas, next, retryCount + 1);
      }
    }
  }

  predicate NoneAccepted(replies: seq<BroadcastReply>)
  {
    forall i :: 0 <= i < |replies| ==> !Accepted(replies[i])
  }

  /** A pass over replies none of which is accepted yields no hash and leaves
      only such replies. */
  lemma ResendNotAccepted(signer: Signer, toAddress: string, value: nat, gas: string, s: LoopState)
    requires !Truthy(s.txHash) && NoneAccepted(s.replies)
    ensures var r := Resend(signer, toAddress, value, gas, s);
      !Truthy(r.txHash) && NoneAccepted(r.replies)
  {
    ResendSigned(signer, toAddress, value, gas, s);
    if s.replies != [] {
      assert !Accepted(s.replies[0]);
      assert forall i :: 0 <= i < |Rest(s.replies)| ==> Rest(s.replies)[i] == s.replies[i + 1];
    }
  }

  /** When no broadcast is accepted, the loop makes `RetryLimit + 1 - retryCount`
      passes (eleven from the start) and throws "Retry limit exceeds". */
  lemma {:induction false} RetryLoopGivesUp(signer: Signer, toAddress: string, value: nat, gas: string,
                                            s: LoopState, retryCount: nat)
    requires retryCount <= RetryLimit
    requires !Truthy(s.txHash)
    requires NoneAccepted(s.replies)
    ensures RetryLoop(signer, toAddress, value, gas, s, retryCount).passes == RetryLimit + 1 - retryCount
    ensures RetryLoop(signer, toAddress, value, gas, s, retryCount).error == Some(RetryLimitExceeded)
    decreases RetryLimit - retryCount
  {
    var next := Resend(signer, toAddress, value, gas, s);
    ResendNotAccepted(signer, toAddress, value, gas, s);
    if retryCount + 1 <= RetryLimit {
      RetryLoopGivesUp(signer, toAddress, value, gas, next, retryCount + 1);
      var rest := RetryLoop(signer, toAddress, value, gas, next, retryCount + 1);
      assert RetryLoop(signer, toAddress, value, gas, s, retryCount) == rest.(passes := rest.passes + 1);
    } else {
      assert RetryLoop(signer, toAddress, value, gas, s, retryCount) == LoopEnd(1, next, Some(RetryLimitExceeded));
    }
  }

  /** `parseInt(sequence, 10)`, NaN (`None`) for `undefined`. */
  function ParseSequence(sequence: Option<string>): (r: Option<int>)
    ensures r.None? <==> sequence.None? || ParseInt(sequence.value).None?
    ensures r.Some? ==> r == ParseInt(sequence.value)
  {
    match sequence
    case None => None
    case Some(s) => match ParseInt(s) case None => None case Some(n) => Some(n)
  }

  /** A loop end with `made` earlier passes counted in. */
  function AfterPasses(made: nat, e: LoopEnd): LoopEnd
  {
    e.(passes := made + e.passes)
  }

  /** One iteration of the retry loop: a `Resend` pass, then, when it yields
      no hash, one more failure counted and the loop given up past
      `RetryLimit`. It keeps the loop on course towards `goal`. */
  method RetryIteration(signer: Signer, toAddress: string, value: nat, gas: string, s: LoopState,
                        retryCount: nat, passes: nat, ghost goal: LoopEnd)
    returns (next: LoopState, count: nat, made: nat, error: Option<string>)
    requires retryCount <= RetryLimit && !Truthy(s.txHash)
    requires AfterPasses(passes, RetryLoop(signer, toAddress, value, gas, s, retryCount)) == goal
    ensures made == passes + 1
    ensures count == retryCount + 1 || (count == retryCount && Truthy(next.txHash) && error.None?)
    ensures error.None? ==> count <= RetryLimit && AfterPasses(made, RetryLoop(signer, toAddress, value, gas, next, count)) == goal
    ensures error.Some? ==> LoopEnd(made, next, error) == goal
  {
    ghost var whole := RetryLoop(signer, toAddress, value, gas, s, retryCount);
    next := Resend(signer, toAddress, value, gas, s);
    made := passes + 1;
    count := retryCount;
    error := None;
    if Truthy(next.txHash) {
      assert whole == LoopEnd(1, next, None);
      assert RetryLoop(signer, toAddress, value, gas, next, count) == LoopEnd(0, next, None);
    } else {
      count := retryCount + 1;
      if count > RetryLimit {
        error := Some(RetryLimitExceeded);
        assert whole == LoopEnd(1, next, error);
      } else {
        ghost var rest := RetryLoop(signer, toAddress, value, gas, next, count);
        assert whole == AfterPasses(1, rest);
        assert AfterPasses(passes, AfterPasses(1, rest)) == AfterPasses(made, rest);
      }
    }
  }

  /** The retry loop of `sendTransactionWithLoop`: one `Resend` pass per
      iteration, counting failed passes and giving up after `RetryLimit`. */
  method RunRetryLoop(signer: Signer, toAddress: string, value: nat, gas: string, start: LoopState) returns (r: LoopEnd)
    ensures r == RetryLoop(signer, toAddress, value, gas, start, 0)
  {
    ghost var goal := RetryLoop(signer, toAddress, value, gas, start, 0);
    var retryCount: nat := 0;
    var passes: nat := 0;
    var error: Option<string> := None;
    var s := start;
    while !Truthy(s.txHash) && error.None?
      invariant retryCount <= RetryLimit + 1
      invariant error.None? ==>
        retryCount <= RetryLimit && AfterPasses(passes, RetryLoop(signer, toAddress, value, gas, s, retryCount)) == goal
      invariant error.Some? ==> LoopEnd(passes, s, error) == goal
      decreases RetryLimit + 1 - retryCount, if !Truthy(s.txHash) && error.None? then 1 else 0
    {
      s, retryCount, passes, error := RetryIteration(signer, toAddress, value, gas, s, retryCount, passes, goal);
    }
    r := LoopEnd(passes, s, error);
  }

  /** The outcome of a dispatch together with the transaction-log documents it leaves. */
  datatype Dispatched = Dispatched(out: CosmosOutcome, docs: map<string, Document>)

  /** `sendTransactionWithLoop(toAddress, value)` on the transaction-log
      documents `docs`. A missing counter or a failed first signing rejects
      without publishing (the latter after the counter was already raised);
      a failed first broadcast is only logged; when the retry loop gives up an
      `eventCosmosError` carrying the allocated sequence is published and the
      call rejects; otherwise the counter is reconciled with the sequence the
      loop last read. */
  function SendWithLoop(docs: map<string, Document>, signer: Signer, toAddress: string, value: nat,
                        infos: seq<Result<AccountInfo, string>>, replies: seq<BroadcastReply>): (r: Dispatched)
    ensures r.docs.Keys == docs.Keys
    ensures forall k :: k in docs && k != CounterKey(signer.address) ==> r.docs[k] == docs[k]
  {
    var key := CounterKey(signer.address);
    match CounterValue(docs, key)
    case None => Dispatched(Threw(MissingCounter, None), docs)
    case Some(v) =>
      var raised := SetCounter(docs, key, v + 1);
      match SignTransaction(signer, toAddress, value, IntToDecimal(v), CosmosGas, NextInfo(infos))
      case Failure(m) => Dispatched(Threw(Thrown(m), None), raised)
      case Success(tx) => BroadcastWithLoop(raised, signer, toAddress, value, v, tx, Rest(infos), replies)
  }

  /** The part of `sendTransactionWithLoop` after the first signing, on the
      documents `docs` whose counter already holds `slot + 1`: the first
      broadcast, the retry loop, then either the `eventCosmosError` or the
      reconciliation. */
  function BroadcastWithLoop(docs: map<string, Document>, signer: Signer, toAddress: string, value: nat, slot: int,
                             tx: StdTx, infos: seq<Result<AccountInfo, string>>, replies: seq<BroadcastReply>): (r: Dispatched)
    requires CounterKey(signer.address) in docs
    ensures r.docs.Keys == docs.Keys
    ensures forall k :: k in docs && k != CounterKey(signer.address) ==> r.docs[k] == docs[k]
  {
    var sent := SendTransaction(NextBroadcast(replies));
    var txHash := if sent.Success? then sent.value else Undefined;
    var loop := RetryLoop(signer, toAddress, value, CosmosGas, LoopState(txHash, None, tx, infos, Rest(replies)), 0);
    if loop.error.Some? then
      var e := Thrown(loop.error.value);
      Dispatched(Threw(e, Some(CosmosError(signer.address, loop.last.txHash, Some(slot), ErrorString(e)))), docs)
    else
      var pendingCount := ParseSequence(loop.last.sequence);
      Dispatched(Sent(CosmosReport(loop.last.tx, loop.last.txHash, CosmosGas, signer.address, pendingCount)),
                 SetCounter(docs, CounterKey(signer.address), Reconciled(slot + 1, pendingCount)))
  }

  /** Only the sender's counter is touched, and it only moves up: a missing
      counter rejects with the TypeError and writes nothing; otherwise the
      counter ends at least one above the sequence it held. */
  lemma SendWithLoopRaisesCounter(docs: map<string, Document>, signer: Signer, toAddress: string, value: nat,
                                  infos: seq<Result<AccountInfo, string>>, replies: seq<BroadcastReply>)
    ensures var r := SendWithLoop(docs, signer, toAddress, value, infos, replies);
      var key := CounterKey(signer.address);
      && CountersNotLowered(docs, r.docs)
      && (CounterValue(docs, key).None? <==> r.out == Threw(MissingCounter, None))
      && (CounterValue(docs, key).None? ==> r.docs == docs)
      && (CounterValue(docs, key).Some? ==>
            CounterValue(r.docs, key).Some? && CounterValue(r.docs, key).value >= CounterValue(docs, key).value + 1)
  {
    var key := CounterKey(signer.address);
    var r := SendWithLoop(docs, signer, toAddress, value, infos, replies);
    if CounterValue(docs, key).Some? {
      var v := CounterValue(docs, key).value;
      var raised := SetCounter(docs, key, v + 1);
      forall k | k in docs && CounterValue(docs, k).Some?
        ensures CounterValue(r.docs, k).Some? && CounterValue(r.docs, k).value >= CounterValue(docs, k).value
      {
        if k == key {
          assert CounterValue(r.docs, key) == Some(v + 1) || exists n :: n >= v + 1 && CounterValue(r.docs, key) == Some(n);
        }
      }
    }
  }

  /** A success reconciles the counter with the sequence it reports: the
      counter ends at `Reconciled(v + 1, pendingCount)`, so above that
      sequence whenever it is a number. */
  lemma SentReconcilesCounter(docs: map<string, Document>, signer: Signer, toAddress: string, value: nat,
                              infos: seq<Result<AccountInfo, string>>, replies: seq<BroadcastReply>)
    ensures var r := SendWithLoop(docs, signer, toAddress, value, infos, replies);
      var key := CounterKey(signer.address);
      r.out.Sent? ==>
        && CounterValue(docs, key).Some?
        && CounterValue(r.docs, key) == Some(Reconciled(CounterValue(docs, key).value + 1, r.out.report.pendingCount))
        && (r.out.report.pendingCount.Some? ==>
              CounterValue(r.docs, key).value >= r.out.report.pendingCount.value + 1)
  {
  }

  /** When the first broadcast is accepted the retry loop never runs, so the
      sequence it would have read stays undefined: the report carries a NaN
      `pendingCount` and reconciliation leaves the counter at its allocated
      value. */
  lemma FirstBroadcastAccepted(docs: map<string, Document>, signer: Signer, toAddress: string, value: nat,
                               infos: seq<Result<AccountInfo, string>>, replies: seq<BroadcastReply>, v: int)
    requires CounterValue(docs, CounterKey(signer.address)) == Some(v)
    requires NextInfo(infos).Success? && replies != [] && Accepted(replies[0])
    ensures var r := SendWithLoop(docs, signer, toAddress, value, infos, replies);
      var tx := SignTransaction(signer, toAddress, value, IntToDecimal(v), CosmosGas, NextInfo(infos)).value;
      && r.out == Sent(CosmosReport(tx, replies[0].txhash, CosmosGas, signer.address, None))
      && CounterValue(r.docs, CounterKey(signer.address)) == Some(v + 1)
  {
    var key := CounterKey(signer.address);
    SetCounterTwice(docs, key, v + 1, v + 1);
  }

  /** What `err.toString()` gives for the retry-limit error. */
  lemma RetryLimitErrorText()
    ensures ErrorString(Thrown(RetryLimitExceeded)) == "Error: Retry limit exceeds"
  {
  }

  /** When no broadcast is accepted, the part after the first signing gives
      up with "Retry limit exceeds", publishes `slot`, and writes nothing. */
  lemma BroadcastGivesUp(docs: map<string, Document>, signer: Signer, toAddress: string, value: nat, slot: int,
                         tx: StdTx, infos: seq<Result<AccountInfo, string>>, replies: seq<BroadcastReply>)
    requires CounterKey(signer.address) in docs
    requires NoneAccepted(replies)
    ensures var r := BroadcastWithLoop(docs, signer, toAddress, value, slot, tx, infos, replies);
      && r.out.Threw? && r.out.error == Thrown(RetryLimitExceeded)
      && r.out.published.Some? && r.out.published.value.txSequence == Some(slot)
      && r.out.published.value.error == "Error: Retry limit exceeds"
      && r.docs == docs
  {
    var sent := SendTransaction(NextBroadcast(replies));
    var txHash := if sent.Success? then sent.value else Undefined;
    assert !Accepted(NextBroadcast(replies));
    assert NoneAccepted(Rest(replies));
    RetryLoopGivesUp(signer, toAddress, value, CosmosGas, LoopState(txHash, None, tx, infos, Rest(replies)), 0);
    RetryLimitErrorText();
  }

  /** When no broadcast is ever accepted (and the first signing succeeds), the
      call rejects with "Retry limit exceeds" after the loop's eleven passes,
      publishing the allocated sequence; the counter keeps its allocated value. */
  lemma NoBroadcastAcceptedGivesUp(docs: map<string, Document>, signer: Signer, toAddress: string, value: nat,
                                   infos: seq<Result<AccountInfo, string>>, replies: seq<BroadcastReply>, v: int)
    requires CounterValue(docs, CounterKey(signer.address)) == Some(v)
    requires NextInfo(infos).Success? && NoneAccepted(replies)
    ensures var r := SendWithLoop(docs, signer, toAddress, value, infos, replies);
      && r.out.Threw? && r.out.error == Thrown(RetryLimitExceeded)
      && r.out.published.Some? && r.out.published.value.txSequence == Some(v)
      && r.out.published.value.error == "Error: Retry limit exceeds"
      && CounterValue(r.docs, CounterKey(signer.address)) == Some(v + 1)
  {
    var key := CounterKey(signer.address);
    var raised := SetCounter(docs, key, v + 1);
    var signed := SignTransaction(signer, toAddress, value, IntToDecimal(v), CosmosGas, NextInfo(infos));
    assert signed.Success?;
    BroadcastGivesUp(raised, signer, toAddress, value, v, signed.value, Rest(infos), replies);
    assert SendWithLoop(docs, signer, toAddress, value, infos, replies) ==
           BroadcastWithLoop(raised, signer, toAddress, value, v, signed.value, Rest(infos), replies);
  }

  /** A reported `pendingCount` that is a number is the sequence the reported
      transaction was signed with. */
  lemma ReportedSequenceIsSigned(docs: map<string, Document>, signer: Signer, toAddress: string, value: nat,
                                 infos: seq<Result<AccountInfo, string>>, replies: seq<BroadcastReply>)
    ensures var r := SendWithLoop(docs, signer, toAddress, value, infos, replies);
      r.out.Sent? && r.out.report.pendingCount.Some? ==>
        |r.out.report.tx.signatures| == 1 &&
        ParseSequence(Some(r.out.report.tx.signatures[0].sequence)) == r.out.report.pendingCount
  {
    var key := CounterKey(signer.address);
    if CounterValue(docs, key).Some? {
      var v := CounterValue(docs, key).value;
      var signed := SignTransaction(signer, toAddress, value, IntToDecimal(v), CosmosGas, NextInfo(infos));
      if signed.Success? {
        var sent := SendTransaction(NextBroadcast(replies));
        var txHash := if sent.Success? then sent.value else Undefined;
        RetryLoopSigned(signer, toAddress, value, CosmosGas, LoopState(txHash, None, signed.value, Rest(infos), Rest(replies)), 0);
      }
    }
  }

  /** A rejection of the first signing (its account-info query failing)
      escapes outside the try block: nothing is published, and the counter
      already holds `v + 1`. */
  lemma FirstSigningRejected(docs: map<string, Document>, signer: Signer, toAddress: string, value: nat,
                             infos: seq<Result<AccountInfo, string>>, replies: seq<BroadcastReply>, v: int)
    requires CounterValue(docs, CounterKey(signer.address)) == Some(v)
    requires NextInfo(infos).Failure?
    ensures var r := SendWithLoop(docs, signer, toAddress, value, infos, replies);
      && r.out == Threw(Thrown(NextInfo(infos).error), None)
      && CounterValue(r.docs, CounterKey(signer.address)) == Some(v + 1)
  {
  }

  /** Which failures are published: exactly those after the first signing,
      which can only be the retry loop giving up. The `eventCosmosError`
      names the sender, the hash the loop holds (not truthy), the allocated
      sequence `v` however many sequences the loop read, and the text of
      "Retry limit exceeds"; the counter keeps `v + 1`. */
  lemma SendWithLoopPublishes(docs: map<string, Document>, signer: Signer, toAddress: string, value: nat,
                              infos: seq<Result<AccountInfo, string>>, replies: seq<BroadcastReply>)
    ensures var r := SendWithLoop(docs, signer, toAddress, value, infos, replies);
      var key := CounterKey(signer.address);
      && (r.out.Threw? ==> (r.out.published.None? <==> CounterValue(docs, key).None? || NextInfo(infos).Failure?))
      && (r.out.Threw? && r.out.published.Some? ==>
            var p := r.out.published.value;
            && r.out.error == Thrown(RetryLimitExceeded)
            && p.fromWallet == signer.address && !Truthy(p.txHash)
            && p.txSequence == Some(CounterValue(docs, key).value)
            && p.error == "Error: Retry limit exceeds"
            && CounterValue(r.docs, key) == Some(CounterValue(docs, key).value + 1))
  {
    var key := CounterKey(signer.address);
    if CounterValue(docs, key).Some? && NextInfo(infos).Success? {
      var v := CounterValue(docs, key).value;
      var raised := SetCounter(docs, key, v + 1);
      var signed := SignTransaction(signer, toAddress, value, IntToDecimal(v), CosmosGas, NextInfo(infos));
      assert SendWithLoop(docs, signer, toAddress, value, infos, replies) ==
             BroadcastWithLoop(raised, signer, toAddress, value, v, signed.value, Rest(infos), replies);
      BroadcastPublishes(raised, signer, toAddress, value, v, signed.value, Rest(infos), replies);
    }
  }

  /** `SendWithLoopPublishes` after the first signing: every failure is the
      retry loop giving up, and it is published with `slot`. */
  lemma BroadcastPublishes(docs: map<string, Document>, signer: Signer, toAddress: string, value: nat, slot: int,
                           tx: StdTx, infos: seq<Result<AccountInfo, string>>, replies: seq<BroadcastReply>)
    requires CounterKey(signer.address) in docs
    ensures var r := BroadcastWithLoop(docs, signer, toAddress, value, slot, tx, infos, replies);
      r.out.Threw? ==>
        var p := r.out.published;
        && p.Some? && r.out.error == Thrown(RetryLimitExceeded)
        && p.value.fromWallet == signer.address && !Truthy(p.value.txHash)
        && p.value.txSequence == Some(slot) && p.value.error == "Error: Retry limit exceeds"
        && r.docs == docs
  {
    RetryLimitErrorText();
  }

  /** `sendTransactionWithLoop(toAddress, value)`, as the transactions on the
      transaction-log collection see it. */
  method SendTransactionWithLoop(txLog: Collection, signer: Signer, toAddress: string, value: nat,
                                 infos: seq<Result<AccountInfo, string>>, replies: seq<BroadcastReply>)
    returns (out: CosmosOutcome)
    modifies txLog
    ensures Dispatched(out, txLog.docs) == SendWithLoop(old(txLog.docs), signer, toAddress, value, infos, replies)
  {
    var gas := CosmosGas;
    var key := CounterKey(signer.address);
    var slot := Allocate(txLog, key);
    if slot.None? {
      out := Threw(MissingCounter, None);
      return;
    }
    var pendingCount := Some(slot.value);
    var first := SignTransaction(signer, toAddress, value, IntToDecimal(slot.value), gas, NextInfo(infos));
    if first.Failure? {
      out := Threw(Thrown(first.error), None);
      return;
    }
    var txHash := Undefined;
    var sent := SendTransaction(NextBroadcast(replies));
    if sent.Success? {
      txHash := sent.value;
    }
    var loop := RunRetryLoop(signer, toAddress, value, gas, LoopState(txHash, None, first.value, Rest(infos), Rest(replies)));
    if loop.error.Some? {
      var e := Thrown(loop.error.value);
      out := Threw(e, Some(CosmosError(signer.address, loop.last.txHash, pendingCount, ErrorString(e))));
      return;
    }
    pendingCount := ParseSequence(loop.last.sequence);
    var ok := Reconcile(txLog, key, pendingCount);
    if !ok {
      out := Threw(MissingCounter, Some(CosmosError(signer.address, loop.last.txHash, pendingCount, ErrorString(MissingCounter))));
      return;
    }
    out := Sent(CosmosReport(loop.last.tx, loop.last.txHash, gas, signer.address, pendingCount));
  }
}
