/** Dispatch of one transfer on the EVM ledger (util/web3.js): clamp the gas
    price, allocate a nonce from the persisted counter, try it up to ten times,
    fall back to the node's pending transaction count until some send yields a
    hash, and raise the counter to match.

    The node is a script of replies consumed in order (`EvmNetwork`); a call
    made after its script is used up fails as a transport error would. Sleeps
    are no-ops. */
module EvmDispatch {
  import opened Js
  import opened Store
  import opened SequenceCounter

  const RetryLimit: nat := 10
  /** The floor put under the node's gas price: 1.5 gwei. */
  const MinGasPrice: int := 1500000000
  const UnderpricedError := "Returned error: replacement transaction underpriced"
  const KnownTransactionError := "Returned error: known transaction:"

  /** The configured sending account. The private key is left abstract. */
  datatype Account = Account(address: string, gasLimit: int)

  /** A signed transaction, given by the fields handed to the signer; the raw
      signed bytes are left abstract. */
  datatype SignedTx = SignedTx(to: string, nonce: int, data: string, gasPrice: int, gas: int)

  /** How a call to `signTransaction` settles. The provider asks the node for
      the chain id before it signs, so a signing can reject like any other
      call to the node. */
  datatype SignReply = Signed | SignError(message: string)

  /** The first event `sendSignedTransaction` emits: a hash, or an error. */
  datatype SendEvent = TransactionHash(hash: string) | SendError(message: string)

  /** How the promise returned by `sendTransaction` settles. */
  datatype SendOutcome = Resolved(value: JsValue) | Rejected(message: string)

  /** Scripted replies of the node: `getGasPrice`, `getTransactionCount(address,
      'pending')`, `signTransaction` and `sendSignedTransaction`, each consumed
      in order. */
  datatype EvmNetwork = EvmNetwork(gasPrices: seq<Result<int, string>>,
                                   pendingCounts: seq<Result<int, string>>,
                                   signings: seq<SignReply>,
                                   sends: seq<SendEvent>)

  /** The event published when the fallback or the reconciliation fails. */
  datatype InfuraError = InfuraError(fromWallet: string, txHash: JsValue, rawSignedTx: SignedTx,
                                     txNonce: int, error: string)

  /** What `sendTransactionWithLoop` resolves with. */
  datatype EvmReport = EvmReport(tx: SignedTx, txHash: JsValue, gasPrice: int,
                                 delegatorAddress: string, pendingCount: int)

  datatype EvmOutcome = Sent(report: EvmReport) | Threw(error: JsError, published: Option<InfuraError>)

  function NextReply<T>(replies: seq<Result<T, string>>): Result<T, string>
  {
    if replies == [] then Failure(NoReply) else replies[0]
  }

  /** The reply to the next signing; a used-up script rejects. */
  function NextSigning(signs: seq<SignReply>): SignReply
  {
    if signs == [] then SignError(NoReply) else signs[0]
  }

  /** The reply to the signing at position `i` of the script. */
  function SigningAt(signs: seq<SignReply>, i: nat): SignReply
  {
    if i == 0 then NextSigning(signs) else SigningAt(Rest(signs), i - 1)
  }

  /** The reply to the next send; a used-up script rejects. */
  function NextEvent(sends: seq<SendEvent>): SendEvent
  {
    if sends == [] then SendError(NoReply) else sends[0]
  }

  /** The reply to the send at position `i` of the script. */
  function EventAt(sends: seq<SendEvent>, i: nat): SendEvent
  {
    if i == 0 then NextEvent(sends) else EventAt(Rest(sends), i - 1)
  }

  /** The gas price used for every attempt: the fee hint, capped by the node's
      price raised to at least 1.5 gwei. */
  function GasPrice(feeHint: int, networkGas: int): (r: int)
    ensures r <= feeHint
    ensures r <= networkGas || r <= MinGasPrice
    ensures r == feeHint || r == networkGas || r == MinGasPrice
    ensures r != feeHint ==> r >= MinGasPrice && r >= networkGas
  {
    var floor := if networkGas > MinGasPrice then networkGas else MinGasPrice;
    if feeHint < floor then feeHint else floor
  }

  /** `sendTransaction`: a hash event resolves with that hash; the exact
      "underpriced" error resolves with `false`; an error naming a known
      transaction resolves with the hash of the raw transaction; any other
      error rejects with its message. `keccak` stands for the hex digest
      `web3.utils.sha3` prints after its "0x". */
  function ClassifySend(ev: SendEvent, tx: SignedTx, keccak: SignedTx -> string): (r: SendOutcome)
    ensures ev.TransactionHash? ==> r == Resolved(Str(ev.hash))
    ensures ev.SendError? ==> (r == Resolved(Bool(false)) <==> ev.message == UnderpricedError)
    ensures ev.SendError? ==>
      (r == Resolved(Str("0x" + keccak(tx))) <==>
         ev.message != UnderpricedError && Contains(ev.message, KnownTransactionError))
    ensures r.Rejected? <==>
      ev.SendError? && ev.message != UnderpricedError && !Contains(ev.message, KnownTransactionError)
    ensures r.Rejected? ==> r.message == ev.message
  {
    match ev
    case TransactionHash(h) => Resolved(Str(h))
    case SendError(m) =>
      if m == UnderpricedError then Resolved(Bool(false))
      else if Contains(m, KnownTransactionError) then Resolved(Str("0x" + keccak(tx)))
      else Rejected(m)
  }

  /** A call with no scripted reply is a plain rejection. */
  lemma NoReplyRejects(tx: SignedTx, keccak: SignedTx -> string)
    ensures ClassifySend(NextEvent([]), tx, keccak) == Rejected(NoReply)
  {
  }

  /** The rejections after which the fast path abandons its nonce without
      counting a retry. */
  predicate StaleNonce(message: string)
  {
    Contains(message, "replacement transaction underpriced") || Contains(message, "nonce too low")
  }

  /** A reply the fast path counts as a failed attempt and retries. */
  predicate CountedFailure(ev: SendEvent)
  {
    ev.SendError? && ev.message != UnderpricedError &&
    !Contains(ev.message, KnownTransactionError) && !StaleNonce(ev.message)
  }

  /** How the fast path ends: the transactions sent, the hash it holds, the
      replies left over, and the rejection of a signing, which escapes the
      whole call. */
  datatype FastEnd = FastEnd(attempts: seq<SignedTx>, txHash: JsValue, restSigns: seq<SignReply>,
                             restSends: seq<SendEvent>, signError: Option<string>)

  /** What one fast-path send leads to: the loop ends holding a value (the
      resolved one, or `undefined` after a stale-nonce rejection), or the
      failure is counted and the attempt retried. */
  datatype FastStep = Done(txHash: JsValue) | Retry

  function NextFastStep(ev: SendEvent, tx: SignedTx, keccak: SignedTx -> string): (s: FastStep)
    ensures s.Retry? <==> CountedFailure(ev)
    ensures s.Retry? ==> ClassifySend(ev, tx, keccak).Rejected?
    ensures s.Done? ==> ClassifySend(ev, tx, keccak) == Resolved(s.txHash) ||
                        (ClassifySend(ev, tx, keccak).Rejected? && StaleNonce(ClassifySend(ev, tx, keccak).message) &&
                         s.txHash == Undefined)
  {
    match ClassifySend(ev, tx, keccak)
    case Resolved(h) => Done(h)
    case Rejected(m) => if StaleNonce(m) then Done(Undefined) else Retry
  }

  /** The fast-path do-while loop from the attempt made with `retryCount`
      failures already counted. Every attempt sends the same transaction,
      signed with the allocated nonce; a signing that rejects ends it before
      that attempt is sent. */
  function FastPath(tx: SignedTx, keccak: SignedTx -> string, signs: seq<SignReply>, sends: seq<SendEvent>,
                    retryCount: nat): (r: FastEnd)
    requires retryCount < RetryLimit
    ensures |r.attempts| <= RetryLimit - retryCount
    ensures r.signError.None? ==> 1 <= |r.attempts|
    ensures r.signError.Some? ==> r.txHash == Undefined
    ensures forall i :: 0 <= i < |r.attempts| ==> r.attempts[i] == tx
    decreases RetryLimit - retryCount
  {
    match NextSigning(signs)
    case SignError(m) => FastEnd([], Undefined, Rest(signs), sends, Some(m))
    case Signed =>
      match NextFastStep(NextEvent(sends), tx, keccak)
      case Done(h) => FastEnd([tx], h, Rest(signs), Rest(sends), None)
      case Retry =>
        if retryCount + 1 == RetryLimit then FastEnd([tx], Undefined, Rest(signs), Rest(sends), None)
        else
          var e := FastPath(tx, keccak, Rest(signs), Rest(sends), retryCount + 1);
          FastEnd([tx] + e.attempts, e.txHash, e.restSigns, e.restSends, e.signError)
  }

  /** A stale-nonce rejection ends the fast path at once: one attempt, no
      hash, and no retry counted. */
  lemma FastPathStaleNonceEnds(tx: SignedTx, keccak: SignedTx -> string, signs: seq<SignReply>,
                               sends: seq<SendEvent>, retryCount: nat, m: string)
    requires retryCount < RetryLimit
    requires NextSigning(signs) == Signed && NextEvent(sends) == SendError(m)
    requires StaleNonce(m) && m != UnderpricedError && !Contains(m, KnownTransactionError)
    ensures FastPath(tx, keccak, signs, sends, retryCount) == FastEnd([tx], Undefined, Rest(signs), Rest(sends), None)
  {
  }

  /** A send that resolves ends the fast path with the value it resolved
      with, `false` included. */
  lemma FastPathResolvedEnds(tx: SignedTx, keccak: SignedTx -> string, signs: seq<SignReply>,
                             sends: seq<SendEvent>, retryCount: nat, h: JsValue)
    requires retryCount < RetryLimit
    requires NextSigning(signs) == Signed && ClassifySend(NextEvent(sends), tx, keccak) == Resolved(h)
    ensures FastPath(tx, keccak, signs, sends, retryCount) == FastEnd([tx], h, Rest(signs), Rest(sends), None)
  {
  }

  /** A signing rejection stops the fast path before its attempt is sent:
      the signing at the position after the attempts made is the one that
      rejected, and the retry limit was not yet reached. */
  lemma {:induction false} FastPathSigningRejected(tx: SignedTx, keccak: SignedTx -> string, signs: seq<SignReply>,
                                                   sends: seq<SendEvent>, retryCount: nat)
    requires retryCount < RetryLimit
    ensures var r := FastPath(tx, keccak, signs, sends, retryCount);
      r.signError.Some? ==>
        |r.attempts| < RetryLimit - retryCount && SigningAt(signs, |r.attempts|) == SignError(r.signError.value)
    decreases RetryLimit - retryCount
  {
    var r := FastPath(tx, keccak, signs, sends, retryCount);
    var step := NextFastStep(NextEvent(sends), tx, keccak);
    assert SigningAt(signs, 0) == NextSigning(signs);
    if NextSigning(signs) == Signed {
      if step.Done? {
        assert r == FastEnd([tx], step.txHash, Rest(signs), Rest(sends), None);
      } else if retryCount + 1 == RetryLimit {
        assert r == FastEnd([tx], Undefined, Rest(signs), Rest(sends), None);
      } else {
        var e := FastPath(tx, keccak, Rest(signs), Rest(sends), retryCount + 1);
        FastPathSigningRejected(tx, keccak, Rest(signs), Rest(sends), retryCount + 1);
        assert r == FastEnd([tx] + e.attempts, e.txHash, e.restSigns, e.restSends, e.signError);
        if e.signError.Some? {
          assert SigningAt(signs, |e.attempts| + 1) == SigningAt(Rest(signs), |e.attempts|);
        }
      }
    } else {
      assert r == FastEnd([], Undefined, Rest(signs), sends, Some(NextSigning(signs).message));
    }
  }

  /** Every attempt the fast path retried got a counted failure. */
  lemma {:induction false} FastPathRetriedCounted(tx: SignedTx, keccak: SignedTx -> string, signs: seq<SignReply>,
                                                  sends: seq<SendEvent>, retryCount: nat, i: nat)
    requires retryCount < RetryLimit
    requires var r := FastPath(tx, keccak, signs, sends, retryCount);
      i < (if r.signError.Some? then |r.attempts| else |r.attempts| - 1)
    ensures CountedFailure(EventAt(sends, i))
    decreases i
  {
    var r := FastPath(tx, keccak, signs, sends, retryCount);
    assert EventAt(sends, 0) == NextEvent(sends);
    assert NextSigning(signs) == Signed;
    assert NextFastStep(NextEvent(sends), tx, keccak).Retry? && retryCount + 1 < RetryLimit;
    if i > 0 {
      var e := FastPath(tx, keccak, Rest(signs), Rest(sends), retryCount + 1);
      assert r == FastEnd([tx] + e.attempts, e.txHash, e.restSigns, e.restSends, e.signError);
      FastPathRetriedCounted(tx, keccak, Rest(signs), Rest(sends), retryCount + 1, i - 1);
      assert EventAt(sends, i) == EventAt(Rest(sends), i - 1);
    }
  }

  /** Every attempt the fast path sent was signed first. */
  lemma {:induction false} FastPathAttemptsSigned(tx: SignedTx, keccak: SignedTx -> string, signs: seq<SignReply>,
                                                  sends: seq<SendEvent>, retryCount: nat, i: nat)
    requires retryCount < RetryLimit
    requires i < |FastPath(tx, keccak, signs, sends, retryCount).attempts|
    ensures SigningAt(signs, i) == Signed
    decreases i
  {
    var r := FastPath(tx, keccak, signs, sends, retryCount);
    assert SigningAt(signs, 0) == NextSigning(signs) == Signed;
    if i > 0 {
      assert NextFastStep(NextEvent(sends), tx, keccak).Retry? && retryCount + 1 < RetryLimit;
      var e := FastPath(tx, keccak, Rest(signs), Rest(sends), retryCount + 1);
      assert r == FastEnd([tx] + e.attempts, e.txHash, e.restSigns, e.restSends, e.signError);
      FastPathAttemptsSigned(tx, keccak, Rest(signs), Rest(sends), retryCount + 1, i - 1);
      assert SigningAt(signs, i) == SigningAt(Rest(signs), i - 1);
    }
  }

  /** How the fast path ends when no signing rejected: the step its last
      reply led to either ended the loop with the hash it holds, or was a
      counted failure that used up the last retry. */
  lemma {:induction false} FastPathLastStep(tx: SignedTx, keccak: SignedTx -> string, signs: seq<SignReply>,
                                            sends: seq<SendEvent>, retryCount: nat)
    requires retryCount < RetryLimit
    ensures var r := FastPath(tx, keccak, signs, sends, retryCount);
      r.signError.None? ==>
        var last := NextFastStep(EventAt(sends, |r.attempts| - 1), tx, keccak);
        || last == Done(r.txHash)
        || (last == Retry && r.txHash == Undefined && |r.attempts| == RetryLimit - retryCount)
    decreases RetryLimit - retryCount
  {
    var r := FastPath(tx, keccak, signs, sends, retryCount);
    var step := NextFastStep(NextEvent(sends), tx, keccak);
    assert EventAt(sends, 0) == NextEvent(sends);
    if NextSigning(signs) == Signed {
      if step.Done? {
        assert r == FastEnd([tx], step.txHash, Rest(signs), Rest(sends), None);
      } else if retryCount + 1 == RetryLimit {
        assert r == FastEnd([tx], Undefined, Rest(signs), Rest(sends), None);
      } else {
        var e := FastPath(tx, keccak, Rest(signs), Rest(sends), retryCount + 1);
        FastPathLastStep(tx, keccak, Rest(signs), Rest(sends), retryCount + 1);
        assert r == FastEnd([tx] + e.attempts, e.txHash, e.restSigns, e.restSends, e.signError);
        if e.signError.None? {
          assert EventAt(sends, |r.attempts| - 1) == EventAt(Rest(sends), |e.attempts| - 1);
        }
      }
    } else {
      assert r == FastEnd([], Undefined, Rest(signs), sends, Some(NextSigning(signs).message));
    }
  }

  /** The same in terms of the reply: it resolved with the hash the fast path
      holds, or it was a rejection that is stale or used up the last retry. */
  lemma FastPathLastReply(tx: SignedTx, keccak: SignedTx -> string, signs: seq<SignReply>,
                          sends: seq<SendEvent>, retryCount: nat)
    requires retryCount < RetryLimit
    ensures var r := FastPath(tx, keccak, signs, sends, retryCount);
      r.signError.None? ==>
        var last := ClassifySend(EventAt(sends, |r.attempts| - 1), tx, keccak);
        || last == Resolved(r.txHash)
        || (last.Rejected? && r.txHash == Undefined &&
            (StaleNonce(last.message) || |r.attempts| == RetryLimit - retryCount))
  {
    FastPathLastStep(tx, keccak, signs, sends, retryCount);
  }

  /** When every signing succeeds and every reply is a counted failure (a
      used-up send script included), the fast path makes exactly the remaining
      `RetryLimit - retryCount` attempts and ends without a hash. */
  lemma {:induction false} FastPathExhaustsRetries(tx: SignedTx, keccak: SignedTx -> string, signs: seq<SignReply>,
                                                   sends: seq<SendEvent>, retryCount: nat)
    requires retryCount < RetryLimit
    requires |signs| >= RetryLimit - retryCount && forall i :: 0 <= i < |signs| ==> signs[i] == Signed
    requires forall i :: 0 <= i < |sends| ==> CountedFailure(sends[i])
    ensures |FastPath(tx, keccak, signs, sends, retryCount).attempts| == RetryLimit - retryCount
    ensures FastPath(tx, keccak, signs, sends, retryCount).txHash == Undefined
    ensures FastPath(tx, keccak, signs, sends, retryCount).signError == None
    decreases RetryLimit - retryCount
  {
    assert NextSigning(signs) == Signed;
    assert CountedFailure(NextEvent(sends));
    if retryCount + 1 < RetryLimit {
      var rest := Rest(sends);
      assert forall i :: 0 <= i < |rest| ==> rest[i] == sends[i + 1];
      assert forall i :: 0 <= i < |Rest(signs)| ==> Rest(signs)[i] == signs[i + 1];
      FastPathExhaustsRetries(tx, keccak, Rest(signs), rest, retryCount + 1);
    }
  }

  /** How the fallback loop ends: the transactions it sent, the hash, nonce and
      transaction it holds last, its error if it threw, and the replies left. */
  datatype FallbackEnd = FallbackEnd(attempts: seq<SignedTx>, txHash: JsValue, nonce: int, tx: SignedTx,
                                     error: Option<string>, restCounts: seq<Result<int, string>>,
                                     restSigns: seq<SignReply>, restSends: seq<SendEvent>)

  /** The fallback `while (!txHash)` loop: each pass reads the node's pending
      count into `pendingCount`, signs with it into `tx` and sends. There is no
      retry bound: only a truthy hash or a thrown error ends it. A signing
      that rejects leaves the new count beside the previous transaction. */
  function Fallback(account: Account, addr: string, txData: string, gasPrice: int, keccak: SignedTx -> string,
                    txHash: JsValue, nonce: int, tx: SignedTx,
                    counts: seq<Result<int, string>>, signs: seq<SignReply>, sends: seq<SendEvent>): (r: FallbackEnd)
    ensures r.error.None? <==> Truthy(r.txHash)
    ensures r.attempts == [] ==> r.tx == tx
    ensures r.attempts != [] ==> r.tx == r.attempts[|r.attempts| - 1]
    ensures r.error.None? ==> r.nonce == if r.attempts == [] then nonce else r.tx.nonce
    decreases |sends|
  {
    if Truthy(txHash) then FallbackEnd([], txHash, nonce, tx, None, counts, signs, sends)
    else
      match NextReply(counts)
      case Failure(m) => FallbackEnd([], txHash, nonce, tx, Some(m), Rest(counts), signs, sends)
      case Success(n) =>
        match NextSigning(signs)
        case SignError(m) => FallbackEnd([], txHash, n, tx, Some(m), Rest(counts), Rest(signs), sends)
        case Signed =>
          var signed := SignedTx(addr, n, txData, gasPrice, account.gasLimit);
          match ClassifySend(NextEvent(sends), signed, keccak)
          case Rejected(m) => FallbackEnd([signed], txHash, n, signed, Some(m), Rest(counts), Rest(signs), Rest(sends))
          case Resolved(h) =>
            NoReplyRejects(signed, keccak);
            var e := Fallback(account, addr, txData, gasPrice, keccak, h, n, signed, Rest(counts), Rest(signs), Rest(sends));
            e.(attempts := [signed] + e.attempts)
  }

  /** The j-th fallback attempt is signed with the j-th pending count the node
      reported, and with the clamped gas price. */
  lemma {:induction false} FallbackSignsWithPendingCount(
    account: Account, addr: string, txData: string, gasPrice: int, keccak: SignedTx -> string,
    txHash: JsValue, nonce: int, tx: SignedTx, counts: seq<Result<int, string>>, signs: seq<SignReply>,
    sends: seq<SendEvent>, j: nat)
    requires j < |Fallback(account, addr, txData, gasPrice, keccak, txHash, nonce, tx, counts, signs, sends).attempts|
    ensures var r := Fallback(account, addr, txData, gasPrice, keccak, txHash, nonce, tx, counts, signs, sends);
      && j < |counts| && counts[j].Success? && r.attempts[j].nonce == counts[j].value
      && r.attempts[j].gasPrice == gasPrice && r.attempts[j].to == addr
    decreases j
  {
    var r := Fallback(account, addr, txData, gasPrice, keccak, txHash, nonce, tx, counts, signs, sends);
    var n := NextReply(counts).value;
    var signed := SignedTx(addr, n, txData, gasPrice, account.gasLimit);
    var sent := ClassifySend(NextEvent(sends), signed, keccak);
    assert !Truthy(txHash) && NextReply(counts).Success? && NextSigning(signs) == Signed;
    assert counts[0] == Success(n);
    if sent.Rejected? {
      assert r == FallbackEnd([signed], txHash, n, signed, Some(sent.message), Rest(counts), Rest(signs), Rest(sends));
    } else {
      NoReplyRejects(signed, keccak);
      var e := Fallback(account, addr, txData, gasPrice, keccak, sent.value, n, signed, Rest(counts), Rest(signs), Rest(sends));
      assert r == e.(attempts := [signed] + e.attempts);
      if j > 0 {
        FallbackSignsWithPendingCount(account, addr, txData, gasPrice, keccak, sent.value, n, signed,
                                      Rest(counts), Rest(signs), Rest(sends), j - 1);
        assert Rest(counts)[j - 1] == counts[j];
      }
    }
  }

  /** The nonce the fallback ends with is the one it started with or a count
      the node reported. */
  lemma {:induction false} FallbackNonceRead(
    account: Account, addr: string, txData: string, gasPrice: int, keccak: SignedTx -> string,
    txHash: JsValue, nonce: int, tx: SignedTx, counts: seq<Result<int, string>>, signs: seq<SignReply>,
    sends: seq<SendEvent>)
    ensures var r := Fallback(account, addr, txData, gasPrice, keccak, txHash, nonce, tx, counts, signs, sends);
      r.nonce == nonce || exists j :: 0 <= j < |counts| && counts[j] == Success(r.nonce)
    decreases |sends|
  {
    var r := Fallback(account, addr, txData, gasPrice, keccak, txHash, nonce, tx, counts, signs, sends);
    if !Truthy(txHash) && NextReply(counts).Success? {
      var n := NextReply(counts).value;
      assert counts[0] == Success(n);
      var signed := SignedTx(addr, n, txData, gasPrice, account.gasLimit);
      var sent := ClassifySend(NextEvent(sends), signed, keccak);
      if NextSigning(signs) == Signed && sent.Resolved? {
        NoReplyRejects(signed, keccak);
        var e := Fallback(account, addr, txData, gasPrice, keccak, sent.value, n, signed, Rest(counts), Rest(signs), Rest(sends));
        FallbackNonceRead(account, addr, txData, gasPrice, keccak, sent.value, n, signed, Rest(counts), Rest(signs), Rest(sends));
        assert r.nonce == e.nonce;
        if e.nonce != n {
          var j :| 0 <= j < |Rest(counts)| && Rest(counts)[j] == Success(e.nonce);
          assert counts[j + 1] == Success(r.nonce);
        }
      }
    }
  }

  /** The fallback has no retry bound: for every n, n "underpriced" replies
      followed by a hash make it send n + 1 times and then succeed. */
  lemma {:induction false} FallbackHasNoRetryBound(
    account: Account, addr: string, txData: string, gasPrice: int, keccak: SignedTx -> string,
    txHash: JsValue, nonce: int, tx: SignedTx, pending: int, hash: string, n: nat)
    requires !Truthy(txHash) && hash != ""
    ensures var r := Fallback(account, addr, txData, gasPrice, keccak, txHash, nonce, tx,
                              seq(n + 1, _ => Success(pending)), seq(n + 1, _ => Signed),
                              seq(n, _ => SendError(UnderpricedError)) + [TransactionHash(hash)]);
      r.error.None? && r.txHash == Str(hash) && |r.attempts| == n + 1
    decreases n
  {
    var counts: seq<Result<int, string>> := seq(n + 1, _ => Success(pending));
    var signs: seq<SignReply> := seq(n + 1, _ => Signed);
    var sends := seq(n, _ => SendError(UnderpricedError)) + [TransactionHash(hash)];
    var signed := SignedTx(addr, pending, txData, gasPrice, account.gasLimit);
    assert NextReply(counts) == Success(pending) && NextSigning(signs) == Signed;
    if n == 0 {
      assert NextEvent(sends) == TransactionHash(hash);
    } else {
      assert NextEvent(sends) == SendError(UnderpricedError);
      assert Rest(counts) == seq(n, _ => Success(pending));
      assert Rest(signs) == seq(n, _ => Signed);
      assert Rest(sends) == seq(n - 1, _ => SendError(UnderpricedError)) + [TransactionHash(hash)];
      FallbackHasNoRetryBound(account, addr, txData, gasPrice, keccak, Bool(false), pending, signed, pending, hash, n - 1);
    }
  }

  /** The fast-path do-while loop of `sendTransactionWithLoop`: sign with the
      allocated nonce and send; stop on a resolved send, on a stale-nonce
      rejection, on a rejected signing, or once `RetryLimit` failures have
      been counted. */
  method RunFastPath(account: Account, addr: string, txData: string, nonce: int, gasPrice: int,
                     keccak: SignedTx -> string, signs0: seq<SignReply>, sends0: seq<SendEvent>)
    returns (attempts: seq<SignedTx>, txHash: JsValue, signs: seq<SignReply>, sends: seq<SendEvent>,
             signError: Option<string>)
    ensures FastEnd(attempts, txHash, signs, sends, signError) ==
            FastPath(SignedTx(addr, nonce, txData, gasPrice, account.gasLimit), keccak, signs0, sends0, 0)
  {
    ghost var tx0 := SignedTx(addr, nonce, txData, gasPrice, account.gasLimit);
    ghost var fast := FastPath(tx0, keccak, signs0, sends0, 0);
    var retryCount: nat := 0;
    var looping := true;
    attempts, txHash, signs, sends, signError := [], Undefined, signs0, sends0, None;
    while looping
      invariant retryCount <= RetryLimit
      invariant looping ==>
        retryCount < RetryLimit && txHash == Undefined && signError.None? &&
        FastAfter(attempts, FastPath(tx0, keccak, signs, sends, retryCount)) == fast
      invariant !looping ==> FastEnd(attempts, txHash, signs, sends, signError) == fast
      decreases (if looping then 1 else 0) + RetryLimit - retryCount
    {
      ghost var made := attempts;
      ghost var before := FastPath(tx0, keccak, signs, sends, retryCount);
      var signing := NextSigning(signs);
      signs := Rest(signs);
      if signing.SignError? {
        signError := Some(signing.message);
        looping := false;
        assert before == FastEnd([], Undefined, signs, sends, signError);
        assert made + [] == made;
      } else {
        var retry := false;
        var tx := SignedTx(addr, nonce, txData, gasPrice, account.gasLimit);
        attempts := attempts + [tx];
        var reply := ClassifySend(NextEvent(sends), tx, keccak);
        sends := Rest(sends);
        match reply {
          case Resolved(h) =>
            txHash := h;
          case Rejected(m) =>
            if !StaleNonce(m) {
              retry := true;
              retryCount := retryCount + 1;
            }
        }
        looping := retry && retryCount < RetryLimit;
        if looping {
          assert before == FastAfter([tx], FastPath(tx0, keccak, signs, sends, retryCount));
          assert FastAfter(made, FastAfter([tx], FastPath(tx0, keccak, signs, sends, retryCount))) ==
                 FastAfter(attempts, FastPath(tx0, keccak, signs, sends, retryCount));
        } else {
          assert before == FastEnd([tx], txHash, signs, sends, None);
        }
      }
    }
  }

  /** `e` preceded by the fast-path attempts already made. */
  function FastAfter(made: seq<SignedTx>, e: FastEnd): FastEnd
  {
    e.(attempts := made + e.attempts)
  }

  /** `e` preceded by the attempts already made. */
  function AfterAttempts(made: seq<SignedTx>, e: FallbackEnd): FallbackEnd
  {
    e.(attempts := made + e.attempts)
  }

  /** The fallback `while (!txHash)` loop of `sendTransactionWithLoop`. A
      failed pending-count read, a rejected signing or a rejected send ends it
      with that error. */
  method RunFallback(account: Account, addr: string, txData: string, gasPrice: int, keccak: SignedTx -> string,
                     txHash0: JsValue, nonce0: int, tx0: SignedTx,
                     counts0: seq<Result<int, string>>, signs0: seq<SignReply>, sends0: seq<SendEvent>)
    returns (r: FallbackEnd)
    ensures r == Fallback(account, addr, txData, gasPrice, keccak, txHash0, nonce0, tx0, counts0, signs0, sends0)
  {
    ghost var fb := Fallback(account, addr, txData, gasPrice, keccak, txHash0, nonce0, tx0, counts0, signs0, sends0);
    var attempts: seq<SignedTx> := [];
    var txHash, pendingCount, tx, counts, signs, sends := txHash0, nonce0, tx0, counts0, signs0, sends0;
    var error: Option<string> := None;
    while !Truthy(txHash) && error.None?
      invariant error.None? ==>
        AfterAttempts(attempts, Fallback(account, addr, txData, gasPrice, keccak, txHash, pendingCount, tx,
                                         counts, signs, sends)) == fb
      invariant error.Some? ==> FallbackEnd(attempts, txHash, pendingCount, tx, error, counts, signs, sends) == fb
      decreases |sends| + (if error.None? then 1 else 0)
    {
      ghost var here := Fallback(account, addr, txData, gasPrice, keccak, txHash, pendingCount, tx, counts, signs, sends);
      ghost var before := attempts;
      var count := NextReply(counts);
      counts := Rest(counts);
      if count.Failure? {
        error := Some(count.error);
        assert here == FallbackEnd([], txHash, pendingCount, tx, error, counts, signs, sends);
      } else {
        pendingCount := count.value;
        var signing := NextSigning(signs);
        signs := Rest(signs);
        if signing.SignError? {
          error := Some(signing.message);
          assert here == FallbackEnd([], txHash, pendingCount, tx, error, counts, signs, sends);
        } else {
          tx := SignedTx(addr, pendingCount, txData, gasPrice, account.gasLimit);
          attempts := attempts + [tx];
          NoReplyRejects(tx, keccak);
          var reply := ClassifySend(NextEvent(sends), tx, keccak);
          sends := Rest(sends);
          match reply {
            case Resolved(h) =>
              txHash := h;
              ghost var next := Fallback(account, addr, txData, gasPrice, keccak, txHash, pendingCount, tx,
                                         counts, signs, sends);
              assert here == next.(attempts := [tx] + next.attempts);
              assert attempts + next.attempts == before + ([tx] + next.attempts);
            case Rejected(m) =>
              error := Some(m);
              assert here == FallbackEnd([tx], txHash, pendingCount, tx, error, counts, signs, sends);
          }
        }
      }
    }
    r := FallbackEnd(attempts, txHash, pendingCount, tx, error, counts, signs, sends);
  }

  /** The outcome of a dispatch, the transactions it sent, the replies left
      over, and the transaction-log documents it leaves. */
  datatype EvmDispatched = EvmDispatched(out: EvmOutcome, attempts: seq<SignedTx>, rest: EvmNetwork,
                                         docs: map<string, Document>)

  /** `sendTransactionWithLoop(addr, txData)` on the transaction-log documents
      `docs`, with the fee hint as a parameter. Failures before the fast path
      (gas price query, counter allocation) reject without publishing; a
      failure in the fallback publishes an `eventInfuraError` and rejects;
      otherwise the counter is reconciled with the nonce that went through. */
  function SendWithLoop(docs: map<string, Document>, account: Account, addr: string, txData: string,
                        feeHint: int, keccak: SignedTx -> string, net: EvmNetwork): (r: EvmDispatched)
    ensures r.docs.Keys == docs.Keys
    ensures forall k :: k in docs && k != CounterKey(account.address) ==> r.docs[k] == docs[k]
  {
    var key := CounterKey(account.address);
    var afterGas := net.(gasPrices := Rest(net.gasPrices));
    match NextReply(net.gasPrices)
    case Failure(m) => EvmDispatched(Threw(Thrown(m), None), [], afterGas, docs)
    case Success(networkGas) =>
      var gasPrice := GasPrice(feeHint, networkGas);
      match CounterValue(docs, key)
      case None => EvmDispatched(Threw(MissingCounter, None), [], afterGas, docs)
      case Some(v) => SendWithNonce(SetCounter(docs, key, v + 1), account, addr, txData, gasPrice, keccak, v, afterGas)
  }

  /** The part of `sendTransactionWithLoop` after the allocation, on the
      documents `docs` whose counter already holds `nonce + 1`: the fast path
      with the allocated nonce, whose signing rejections escape unpublished;
      the fallback; then either the `eventInfuraError` or the
      reconciliation. */
  function SendWithNonce(docs: map<string, Document>, account: Account, addr: string, txData: string,
                         gasPrice: int, keccak: SignedTx -> string, nonce: int, net: EvmNetwork): (r: EvmDispatched)
    requires CounterKey(account.address) in docs
    ensures r.docs.Keys == docs.Keys
    ensures forall k :: k in docs && k != CounterKey(account.address) ==> r.docs[k] == docs[k]
  {
    var tx0 := SignedTx(addr, nonce, txData, gasPrice, account.gasLimit);
    var fast := FastPath(tx0, keccak, net.signings, net.sends, 0);
    if fast.signError.Some? then
      EvmDispatched(Threw(Thrown(fast.signError.value), None), fast.attempts,
                    net.(signings := fast.restSigns, sends := fast.restSends), docs)
    else
      var fb := Fallback(account, addr, txData, gasPrice, keccak, fast.txHash, nonce, tx0,
                         net.pendingCounts, fast.restSigns, fast.restSends);
      var attempts := fast.attempts + fb.attempts;
      var rest := net.(pendingCounts := fb.restCounts, signings := fb.restSigns, sends := fb.restSends);
      if fb.error.Some? then
        var e := Thrown(fb.error.value);
        EvmDispatched(Threw(e, Some(InfuraError(account.address, fb.txHash, fb.tx, fb.nonce, ErrorString(e)))),
                      attempts, rest, docs)
      else
        EvmDispatched(Sent(EvmReport(fb.tx, fb.txHash, gasPrice, account.address, fb.nonce)), attempts, rest,
                      SetCounter(docs, CounterKey(account.address), Reconciled(nonce + 1, Some(fb.nonce))))
  }

  /** Only the sender's counter is touched, and it only moves up; when the
      gas price query or the counter fails nothing is sent or written. */
  lemma SendWithLoopRaisesCounter(docs: map<string, Document>, account: Account, addr: string, txData: string,
                                  feeHint: int, keccak: SignedTx -> string, net: EvmNetwork)
    ensures var r := SendWithLoop(docs, account, addr, txData, feeHint, keccak, net);
      var key := CounterKey(account.address);
      && CountersNotLowered(docs, r.docs)
      && (NextReply(net.gasPrices).Failure? || CounterValue(docs, key).None? ==> r.docs == docs && r.attempts == [])
      && (NextReply(net.gasPrices).Success? && CounterValue(docs, key).Some? ==>
            CounterValue(r.docs, key).Some? && CounterValue(r.docs, key).value >= CounterValue(docs, key).value + 1)
  {
  }

  /** A successful dispatch reports the nonce its transaction carries, a
      truthy hash and a gas price within the fee hint, and leaves the counter
      above that nonce, so the next allocation does not reuse it. */
  lemma SentLeavesCounterAboveNonce(docs: map<string, Document>, account: Account, addr: string, txData: string,
                                    feeHint: int, keccak: SignedTx -> string, net: EvmNetwork)
    ensures var r := SendWithLoop(docs, account, addr, txData, feeHint, keccak, net);
      var key := CounterKey(account.address);
      r.out.Sent? ==>
        && r.out.report.pendingCount == r.out.report.tx.nonce
        && Truthy(r.out.report.txHash)
        && r.out.report.tx.gasPrice == r.out.report.gasPrice <= feeHint
        && r.attempts != [] && r.out.report.tx == r.attempts[|r.attempts| - 1]
        && CounterValue(r.docs, key).Some? && CounterValue(r.docs, key).value >= r.out.report.pendingCount + 1
        && CounterValue(docs, key).Some?
        && CounterValue(r.docs, key) == Some(Reconciled(CounterValue(docs, key).value + 1, Some(r.out.report.pendingCount)))
  {
    var key := CounterKey(account.address);
    if NextReply(net.gasPrices).Success? && CounterValue(docs, key).Some? {
      var gasPrice := GasPrice(feeHint, NextReply(net.gasPrices).value);
      var v := CounterValue(docs, key).value;
      var tx0 := SignedTx(addr, v, txData, gasPrice, account.gasLimit);
      var fast := FastPath(tx0, keccak, net.signings, net.sends, 0);
      if fast.signError.None? {
        var fallback := Fallback(account, addr, txData, gasPrice, keccak, fast.txHash, v, tx0,
                                 net.pendingCounts, fast.restSigns, fast.restSends);
        if fallback.attempts != [] {
          FallbackSignsWithPendingCount(account, addr, txData, gasPrice, keccak, fast.txHash, v, tx0,
                                        net.pendingCounts, fast.restSigns, fast.restSends, |fallback.attempts| - 1);
        }
      }
    }
  }

  /** Which failures are published. Those before the fast path are not; after
      the allocation, a rejection is left unpublished only when it is a
      fast-path signing that rejected, before its attempt was sent; every
      other one publishes an `eventInfuraError` naming the sender, the last
      transaction sent, the nonce the call held (the allocated one or a
      count the node reported) and the text of the thrown error. */
  lemma SendWithLoopPublishes(docs: map<string, Document>, account: Account, addr: string, txData: string,
                              feeHint: int, keccak: SignedTx -> string, net: EvmNetwork)
    ensures var r := SendWithLoop(docs, account, addr, txData, feeHint, keccak, net);
      var key := CounterKey(account.address);
      && (NextReply(net.gasPrices).Failure? ==> r.out == Threw(Thrown(NextReply(net.gasPrices).error), None))
      && (NextReply(net.gasPrices).Success? && CounterValue(docs, key).None? ==> r.out == Threw(MissingCounter, None))
      && (NextReply(net.gasPrices).Success? && CounterValue(docs, key).Some? ==>
            var tx0 := SignedTx(addr, CounterValue(docs, key).value, txData,
                                GasPrice(feeHint, NextReply(net.gasPrices).value), account.gasLimit);
            (r.out.Threw? && r.out.published.None? <==> FastPath(tx0, keccak, net.signings, net.sends, 0).signError.Some?))
      && (NextReply(net.gasPrices).Success? && CounterValue(docs, key).Some? && r.out.Threw? && r.out.published.None? ==>
            |r.attempts| < RetryLimit && SigningAt(net.signings, |r.attempts|).SignError? &&
            r.out.error == Thrown(SigningAt(net.signings, |r.attempts|).message))
      && (r.out.Threw? && r.out.published.Some? ==>
            var p := r.out.published.value;
            && NextReply(net.gasPrices).Success? && CounterValue(docs, key).Some?
            && p.fromWallet == account.address && !Truthy(p.txHash)
            && p.error == ErrorString(r.out.error)
            && r.attempts != [] && p.rawSignedTx == r.attempts[|r.attempts| - 1]
            && (p.txNonce == CounterValue(docs, key).value ||
                exists j :: 0 <= j < |net.pendingCounts| && net.pendingCounts[j] == Success(p.txNonce)))
  {
    var key := CounterKey(account.address);
    if NextReply(net.gasPrices).Success? && CounterValue(docs, key).Some? {
      var gasPrice := GasPrice(feeHint, NextReply(net.gasPrices).value);
      var v := CounterValue(docs, key).value;
      SendWithNoncePublishes(SetCounter(docs, key, v + 1), account, addr, txData, gasPrice, keccak, v,
                             net.(gasPrices := Rest(net.gasPrices)));
    }
  }

  /** `SendWithLoopPublishes` after the allocation of `nonce`. */
  lemma SendWithNoncePublishes(docs: map<string, Document>, account: Account, addr: string, txData: string,
                               gasPrice: int, keccak: SignedTx -> string, nonce: int, net: EvmNetwork)
    requires CounterKey(account.address) in docs
    ensures var r := SendWithNonce(docs, account, addr, txData, gasPrice, keccak, nonce, net);
      && (r.out.Threw? && r.out.published.None? <==>
            FastPath(SignedTx(addr, nonce, txData, gasPrice, account.gasLimit), keccak, net.signings, net.sends, 0).signError.Some?)
      && (r.out.Threw? && r.out.published.None? ==>
            |r.attempts| < RetryLimit && SigningAt(net.signings, |r.attempts|).SignError? &&
            r.out.error == Thrown(SigningAt(net.signings, |r.attempts|).message))
      && (r.out.Threw? && r.out.published.Some? ==>
            var p := r.out.published.value;
            && p.fromWallet == account.address && !Truthy(p.txHash)
            && p.error == ErrorString(r.out.error)
            && r.attempts != [] && p.rawSignedTx == r.attempts[|r.attempts| - 1]
            && (p.txNonce == nonce ||
                exists j :: 0 <= j < |net.pendingCounts| && net.pendingCounts[j] == Success(p.txNonce)))
  {
    var tx0 := SignedTx(addr, nonce, txData, gasPrice, account.gasLimit);
    var fast := FastPath(tx0, keccak, net.signings, net.sends, 0);
    FastPathSigningRejected(tx0, keccak, net.signings, net.sends, 0);
    if fast.signError.None? {
      var fb := Fallback(account, addr, txData, gasPrice, keccak, fast.txHash, nonce, tx0,
                         net.pendingCounts, fast.restSigns, fast.restSends);
      FallbackNonceRead(account, addr, txData, gasPrice, keccak, fast.txHash, nonce, tx0,
                        net.pendingCounts, fast.restSigns, fast.restSends);
      var attempts := fast.attempts + fb.attempts;
      assert fast.attempts[|fast.attempts| - 1] == tx0;
      if fb.attempts == [] {
        assert attempts[|attempts| - 1] == tx0;
      } else {
        assert attempts[|attempts| - 1] == fb.attempts[|fb.attempts| - 1];
      }
    }
  }

  /** A signing rejected at the start of the fast path escapes unpublished,
      with nothing sent and the counter already raised to `v + 1`. */
  lemma FastSigningRejected(docs: map<string, Document>, account: Account, addr: string, txData: string,
                            feeHint: int, keccak: SignedTx -> string, net: EvmNetwork, v: int, m: string)
    requires NextReply(net.gasPrices).Success?
    requires CounterValue(docs, CounterKey(account.address)) == Some(v)
    requires NextSigning(net.signings) == SignError(m)
    ensures var r := SendWithLoop(docs, account, addr, txData, feeHint, keccak, net);
      && r.out == Threw(Thrown(m), None) && r.attempts == []
      && CounterValue(r.docs, CounterKey(account.address)) == Some(v + 1)
  {
  }

  /** A signing rejected in the fallback is published with `pendingCount`
      already holding the count just read while `tx` is still the transaction
      sent before: here the allocated one, after its "underpriced" reply. */
  lemma FallbackSigningRejected(docs: map<string, Document>, account: Account, addr: string, txData: string,
                                feeHint: int, keccak: SignedTx -> string, net: EvmNetwork,
                                v: int, networkGas: int, n: int, m: string)
    requires NextReply(net.gasPrices) == Success(networkGas)
    requires CounterValue(docs, CounterKey(account.address)) == Some(v)
    requires |net.signings| >= 2 && net.signings[0] == Signed && net.signings[1] == SignError(m)
    requires net.sends != [] && net.sends[0] == SendError(UnderpricedError)
    requires net.pendingCounts != [] && net.pendingCounts[0] == Success(n)
    ensures var r := SendWithLoop(docs, account, addr, txData, feeHint, keccak, net);
      var tx0 := SignedTx(addr, v, txData, GasPrice(feeHint, networkGas), account.gasLimit);
      && r.out == Threw(Thrown(m), Some(InfuraError(account.address, Bool(false), tx0, n, ErrorString(Thrown(m)))))
      && r.attempts == [tx0]
      && CounterValue(r.docs, CounterKey(account.address)) == Some(v + 1)
  {
    var tx0 := SignedTx(addr, v, txData, GasPrice(feeHint, networkGas), account.gasLimit);
    assert Rest(net.signings)[0] == SignError(m);
    FastPathResolvedEnds(tx0, keccak, net.signings, net.sends, 0, Bool(false));
  }

  /** When the first send yields a hash, that one transaction signed with the
      allocated nonce is reported and the counter keeps its allocated value. */
  lemma FirstSendAccepted(docs: map<string, Document>, account: Account, addr: string, txData: string,
                          feeHint: int, keccak: SignedTx -> string, net: EvmNetwork, v: int, networkGas: int, hash: string)
    requires NextReply(net.gasPrices) == Success(networkGas)
    requires CounterValue(docs, CounterKey(account.address)) == Some(v)
    requires NextSigning(net.signings) == Signed
    requires net.sends != [] && net.sends[0] == TransactionHash(hash) && hash != ""
    ensures var r := SendWithLoop(docs, account, addr, txData, feeHint, keccak, net);
      var tx := SignedTx(addr, v, txData, GasPrice(feeHint, networkGas), account.gasLimit);
      && r.out == Sent(EvmReport(tx, Str(hash), GasPrice(feeHint, networkGas), account.address, v))
      && r.attempts == [tx]
      && CounterValue(r.docs, CounterKey(account.address)) == Some(v + 1)
  {
    SetCounterTwice(docs, CounterKey(account.address), v + 1, v + 1);
  }

  /** `sendTransactionWithLoop(addr, txData)`, as the transactions on the
      transaction-log collection see it. */
  method SendTransactionWithLoop(txLog: Collection, account: Account, addr: string, txData: string,
                                 feeHint: int, keccak: SignedTx -> string, net: EvmNetwork)
    returns (out: EvmOutcome, attempts: seq<SignedTx>, rest: EvmNetwork)
    modifies txLog
    ensures EvmDispatched(out, attempts, rest, txLog.docs) ==
            SendWithLoop(old(txLog.docs), account, addr, txData, feeHint, keccak, net)
  {
    var key := CounterKey(account.address);
    var networkGas := NextReply(net.gasPrices);
    rest := net.(gasPrices := Rest(net.gasPrices));
    attempts := [];
    if networkGas.Failure? {
      out := Threw(Thrown(networkGas.error), None);
      return;
    }
    var gasPrice := GasPrice(feeHint, networkGas.value);
    var slot := Allocate(txLog, key);
    if slot.None? {
      out := Threw(MissingCounter, None);
      return;
    }
    var fastAttempts, txHash, signs, sends, signError :=
      RunFastPath(account, addr, txData, slot.value, gasPrice, keccak, net.signings, net.sends);
    if signError.Some? {
      attempts := fastAttempts;
      rest := rest.(signings := signs, sends := sends);
      out := Threw(Thrown(signError.value), None);
      return;
    }
    var tx0 := SignedTx(addr, slot.value, txData, gasPrice, account.gasLimit);
    var fb := RunFallback(account, addr, txData, gasPrice, keccak, txHash, slot.value, tx0, net.pendingCounts, signs, sends);
    attempts := fastAttempts + fb.attempts;
    rest := rest.(pendingCounts := fb.restCounts, signings := fb.restSigns, sends := fb.restSends);
    if fb.error.Some? {
      var e := Thrown(fb.error.value);
      out := Threw(e, Some(InfuraError(account.address, fb.txHash, fb.tx, fb.nonce, ErrorString(e))));
      return;
    }
    var ok := Reconcile(txLog, key, Some(fb.nonce));
    if !ok {
      out := Threw(MissingCounter, Some(InfuraError(account.address, fb.txHash, fb.tx, fb.nonce, ErrorString(MissingCounter))));
      return;
    }
    out := Sent(EvmReport(fb.tx, fb.txHash, gasPrice, account.address, fb.nonce));
  }
}
