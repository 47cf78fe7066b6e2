/** The payout handler (index.js `handleQuery`): group the pending payout
    records by recipient wallet, then for each wallet in turn claim its
    records all-or-nothing and dispatch one transfer on the EVM ledger.

    The payout collection is a `Collection` whose documents carry a `txHash`
    field; the records handed to `handleQuery` are plain values. The ABI
    encoder of the token contract's `transfer` call is a parameter. */
module Payout {
  import opened Js
  import opened Store
  import opened SequenceCounter
  import EvmDispatch

  /** A pending payout record as `handleQuery` reads it. */
  datatype PayoutRecord = PayoutRecord(id: string, to: JsValue, toId: JsValue, amount: JsValue)

  /** A receiver entry of the grouping map. `amount` is the token amount of the
      transfer (a BigNumber in the source). */
  datatype Receiver = Receiver(wallet: JsValue, user: JsValue, payoutIds: seq<string>, amount: int)

  /** `makeNewRecevier(wallet, user)`: no payout ids yet and a zero amount. */
  function MakeNewReceiver(wallet: JsValue, user: JsValue): Receiver
  {
    Receiver(wallet, user, [], 0)
  }

  /** A record takes part in the payout unless its `amount` is falsy. */
  predicate Kept(d: PayoutRecord)
  {
    Truthy(d.amount)
  }

  /** The key under which `senderMap[d.to]` files a record. */
  function WalletKey(d: PayoutRecord): string
  {
    PropertyKey(d.to)
  }

  /** The grouping map and its keys in insertion order (`Object.keys(senderMap)`). */
  datatype Grouped = Grouped(wallets: seq<string>, receivers: map<string, Receiver>)

  /** One step of the `forEach`: a kept record creates its wallet's entry if
      there is none and appends its id; `amount.plus(d.amount)` is computed and
      discarded, so the entry's amount does not change. */
  function AddRecord(g: Grouped, d: PayoutRecord): Grouped
  {
    if !Kept(d) then g
    else
      var k := WalletKey(d);
      var entry := if k in g.receivers then g.receivers[k] else MakeNewReceiver(d.to, d.toId);
      var wallets := if k in g.receivers then g.wallets else g.wallets + [k];
      Grouped(wallets, g.receivers[k := entry.(payoutIds := entry.payoutIds + [d.id])])
  }

  /** One step files a kept record under its wallet key and nothing else: an
      existing entry gets the id appended, a new one starts from
      `makeNewRecevier` with just that id, and a new key is appended to the
      key order; a skipped record changes nothing. */
  lemma AddRecordFiles(g: Grouped, d: PayoutRecord)
    ensures var r := AddRecord(g, d);
      && (!Kept(d) ==> r == g)
      && (Kept(d) ==>
            var k := WalletKey(d);
            && r.receivers.Keys == g.receivers.Keys + {k}
            && (forall w :: w in g.receivers && w != k ==> r.receivers[w] == g.receivers[w])
            && (k in g.receivers ==> r.receivers[k] == g.receivers[k].(payoutIds := g.receivers[k].payoutIds + [d.id]))
            && (k !in g.receivers ==> r.receivers[k] == MakeNewReceiver(d.to, d.toId).(payoutIds := [d.id]))
            && g.wallets <= r.wallets
            && r.wallets[|g.wallets|..] == (if k in g.receivers then [] else [k]))
  {
  }

  /** The grouping map after the `forEach` over `docs`. */
  function Grouping(docs: seq<PayoutRecord>): (g: Grouped)
    ensures forall i :: 0 <= i < |g.wallets| ==> g.wallets[i] in g.receivers
    ensures forall k :: k in g.receivers ==> k in g.wallets
  {
    if docs == [] then Grouped([], map[]) else AddRecord(Grouping(docs[..|docs| - 1]), docs[|docs| - 1])
  }

  /** True when record `d` is filed under wallet key `k`. */
  predicate FiledUnder(d: PayoutRecord, k: string)
  {
    Kept(d) && WalletKey(d) == k
  }

  /** The ids of the records filed under `k`, in input order. */
  function IdsFor(docs: seq<PayoutRecord>, k: string): (ids: seq<string>)
    ensures forall id :: id in ids <==> exists i :: 0 <= i < |docs| && FiledUnder(docs[i], k) && docs[i].id == id
  {
    if docs == [] then []
    else
      var prefix := docs[..|docs| - 1];
      var d := docs[|docs| - 1];
      assert forall i :: 0 <= i < |prefix| ==> prefix[i] == docs[i];
      IdsFor(prefix, k) + (if FiledUnder(d, k) then [d.id] else [])
  }

  /** The index of the first record filed under `k`, if any. */
  function FirstIndex(docs: seq<PayoutRecord>, k: string): (r: Option<nat>)
    ensures r.Some? ==> r.value < |docs| && FiledUnder(docs[r.value], k)
    ensures r.Some? ==> forall j :: 0 <= j < r.value ==> !FiledUnder(docs[j], k)
    ensures r.None? ==> forall j :: 0 <= j < |docs| ==> !FiledUnder(docs[j], k)
  {
    if docs == [] then None
    else
      var prefix := docs[..|docs| - 1];
      assert forall i :: 0 <= i < |prefix| ==> prefix[i] == docs[i];
      var p := FirstIndex(prefix, k);
      if p.Some? then p
      else if FiledUnder(docs[|docs| - 1], k) then Some(|docs| - 1)
      else None
  }

  /** What the grouping is: one entry per distinct wallet key of a kept
      record, whose wallet and user are those of the first record filed under
      it, whose ids are all the ids filed under it in input order, and whose
      amount is zero; the keys come in order of their first record. */
  ghost predicate GroupedBy(g: Grouped, docs: seq<PayoutRecord>)
  {
    && (forall k :: k in g.receivers <==> FirstIndex(docs, k).Some?)
    && (forall k :: k in g.receivers ==>
          var first := docs[FirstIndex(docs, k).value];
          g.receivers[k] == Receiver(first.to, first.toId, IdsFor(docs, k), 0))
    && (forall i :: 0 <= i < |g.wallets| ==> g.wallets[i] in g.receivers)
    && OrderedByFirstRecord(docs, g.wallets, |docs|)
  }

  lemma {:induction false} GroupingKeys(docs: seq<PayoutRecord>)
    ensures forall k :: k in Grouping(docs).receivers <==> FirstIndex(docs, k).Some?
  {
    if docs != [] {
      GroupingKeys(docs[..|docs| - 1]);
    }
  }

  lemma {:induction false} IdsForNone(docs: seq<PayoutRecord>, k: string)
    requires FirstIndex(docs, k).None?
    ensures IdsFor(docs, k) == []
  {
    if docs != [] {
      IdsForNone(docs[..|docs| - 1], k);
    }
  }

  lemma {:induction false} GroupingEntries(docs: seq<PayoutRecord>)
    ensures forall k :: k in Grouping(docs).receivers ==>
      FirstIndex(docs, k).Some? &&
      var first := docs[FirstIndex(docs, k).value];
      Grouping(docs).receivers[k] == Receiver(first.to, first.toId, IdsFor(docs, k), 0)
  {
    if docs != [] {
      var prefix := docs[..|docs| - 1];
      var d := docs[|docs| - 1];
      GroupingEntries(prefix);
      GroupingKeys(prefix);
      GroupingKeys(docs);
      var g := Grouping(prefix);
      var g' := Grouping(docs);
      assert g' == AddRecord(g, d);
      forall k | k in g'.receivers
        ensures FirstIndex(docs, k).Some? &&
          var first := docs[FirstIndex(docs, k).value];
          g'.receivers[k] == Receiver(first.to, first.toId, IdsFor(docs, k), 0)
      {
        assert IdsFor(docs, k) == IdsFor(prefix, k) + (if FiledUnder(d, k) then [d.id] else []);
        if k in g.receivers {
          var i := FirstIndex(prefix, k).value;
          assert FirstIndex(docs, k) == Some(i);
          assert docs[i] == prefix[i];
        } else {
          assert FiledUnder(d, k);
          assert FirstIndex(docs, k) == Some(|docs| - 1);
          IdsForNone(prefix, k);
        }
      }
    }
  }

  /** Wallet keys whose first record lies before `bound`, in increasing order of it. */
  ghost predicate OrderedByFirstRecord(docs: seq<PayoutRecord>, wallets: seq<string>, bound: nat)
  {
    && (forall i :: 0 <= i < |wallets| ==> FirstIndex(docs, wallets[i]).Some? && FirstIndex(docs, wallets[i]).value < bound)
    && (forall i, j :: 0 <= i < j < |wallets| ==> FirstIndex(docs, wallets[i]).value < FirstIndex(docs, wallets[j]).value)
  }

  lemma OrderedAppend(docs: seq<PayoutRecord>, wallets: seq<string>, k: string, bound: nat)
    requires OrderedByFirstRecord(docs, wallets, bound)
    requires FirstIndex(docs, k) == Some(bound)
    ensures OrderedByFirstRecord(docs, wallets + [k], bound + 1)
  {
    var ws := wallets + [k];
    forall i | 0 <= i < |ws|
      ensures FirstIndex(docs, ws[i]).Some? && FirstIndex(docs, ws[i]).value < bound + 1
    {
      if i < |wallets| {
        assert ws[i] == wallets[i];
      }
    }
    forall i, j | 0 <= i < j < |ws|
      ensures FirstIndex(docs, ws[i]).value < FirstIndex(docs, ws[j]).value
    {
      assert ws[i] == wallets[i];
      if j < |wallets| {
        assert ws[j] == wallets[j];
      }
    }
  }

  /** Adding a record changes no first index that already existed. */
  lemma FirstIndexStable(docs: seq<PayoutRecord>, k: string)
    requires docs != [] && FirstIndex(docs[..|docs| - 1], k).Some?
    ensures FirstIndex(docs, k) == FirstIndex(docs[..|docs| - 1], k)
  {
  }

  lemma {:induction false} GroupingOrder(docs: seq<PayoutRecord>)
    ensures OrderedByFirstRecord(docs, Grouping(docs).wallets, |docs|)
  {
    if docs != [] {
      var prefix := docs[..|docs| - 1];
      var d := docs[|docs| - 1];
      GroupingOrder(prefix);
      var g := Grouping(prefix);
      var g' := Grouping(docs);
      assert g' == AddRecord(g, d);
      forall i | 0 <= i < |g.wallets|
        ensures FirstIndex(docs, g.wallets[i]) == FirstIndex(prefix, g.wallets[i])
      {
        FirstIndexStable(docs, g.wallets[i]);
      }
      assert OrderedByFirstRecord(docs, g.wallets, |prefix|);
      if g'.wallets != g.wallets {
        GroupingKeys(prefix);
        var k := WalletKey(d);
        assert g'.wallets == g.wallets + [k];
        assert FirstIndex(prefix, k).None?;
        OrderedAppend(docs, g.wallets, k, |prefix|);
      }
    }
  }

  lemma GroupingCharacterised(docs: seq<PayoutRecord>)
    ensures GroupedBy(Grouping(docs), docs)
  {
    GroupingKeys(docs);
    GroupingEntries(docs);
    GroupingOrder(docs);
  }

  /** The `forEach` of `handleQuery`, building `senderMap` and the order of its keys. */
  method GroupByWallet(docs: seq<PayoutRecord>) returns (wallets: seq<string>, senderMap: map<string, Receiver>)
    ensures Grouped(wallets, senderMap) == Grouping(docs)
  {
    wallets, senderMap := [], map[];
    for i := 0 to |docs|
      invariant Grouped(wallets, senderMap) == Grouping(docs[..i])
    {
      assert docs[..i + 1][..i] == docs[..i];
      var d := docs[i];
      if !Kept(d) {
        // logged as "<id> has not amount" and skipped
        continue;
      }
      var k := WalletKey(d);
      if k !in senderMap {
        senderMap := senderMap[k := MakeNewReceiver(d.to, d.toId)];
        wallets := wallets + [k];
      }
      // `amount.plus(d.amount)` returns a new value that is dropped.
      senderMap := senderMap[k := senderMap[k].(payoutIds := senderMap[k].payoutIds + [d.id])];
    }
    assert docs[..|docs|] == docs;
  }

  ghost predicate DistinctIds(docs: seq<PayoutRecord>)
  {
    forall i, j :: 0 <= i < j < |docs| ==> docs[i].id != docs[j].id
  }

  /** With distinct record ids, a kept record's id is in exactly one entry,
      the one for its own wallet key (`"undefined"` when it has no `to`), and a
      skipped record's id is in none. */
  lemma RecordFiledOnce(docs: seq<PayoutRecord>, i: nat)
    requires DistinctIds(docs) && i < |docs|
    ensures var g := Grouping(docs);
      && (Kept(docs[i]) ==> WalletKey(docs[i]) in g.receivers && docs[i].id in g.receivers[WalletKey(docs[i])].payoutIds)
      && (forall k :: k in g.receivers && !FiledUnder(docs[i], k) ==> docs[i].id !in g.receivers[k].payoutIds)
  {
    GroupingKeys(docs);
    GroupingEntries(docs);
    var g := Grouping(docs);
    if Kept(docs[i]) {
      var k := WalletKey(docs[i]);
      assert FiledUnder(docs[i], k);
      assert k in g.receivers;
      assert g.receivers[k].payoutIds == IdsFor(docs, k);
    }
    forall k | k in g.receivers && !FiledUnder(docs[i], k)
      ensures docs[i].id !in g.receivers[k].payoutIds
    {
      assert g.receivers[k].payoutIds == IdsFor(docs, k);
      NotFiledElsewhere(docs, i, k);
    }
  }

  /** A kept record without a `to` is not skipped: it is filed under the key
      "undefined", and its wallet is then `undefined` unless an earlier record
      under that key set it. */
  lemma RecordWithoutRecipientKept(docs: seq<PayoutRecord>, i: nat)
    requires i < |docs| && Kept(docs[i]) && docs[i].to == Undefined
    ensures var g := Grouping(docs);
      "undefined" in g.receivers && docs[i].id in g.receivers["undefined"].payoutIds
  {
    GroupingKeys(docs);
    GroupingEntries(docs);
    assert FiledUnder(docs[i], "undefined");
  }

  /** With distinct record ids, a record's id is listed only under its own key. */
  lemma NotFiledElsewhere(docs: seq<PayoutRecord>, i: nat, k: string)
    requires DistinctIds(docs) && i < |docs| && !FiledUnder(docs[i], k)
    ensures docs[i].id !in IdsFor(docs, k)
  {
  }

  /** With distinct record ids, no entry lists an id twice. */
  lemma {:induction false} IdsForDistinct(docs: seq<PayoutRecord>, k: string)
    requires DistinctIds(docs)
    ensures var ids := IdsFor(docs, k);
      forall a, b :: 0 <= a < b < |ids| ==> ids[a] != ids[b]
  {
    if docs != [] {
      var prefix := docs[..|docs| - 1];
      var d := docs[|docs| - 1];
      assert forall i :: 0 <= i < |prefix| ==> prefix[i] == docs[i];
      IdsForDistinct(prefix, k);
      var before := IdsFor(prefix, k);
      var ids := IdsFor(docs, k);
      assert forall a, b :: 0 <= a < b < |IdsFor(prefix, k)| ==> IdsFor(prefix, k)[a] != IdsFor(prefix, k)[b];
      if FiledUnder(d, k) {
        assert d.id !in before;
        assert ids == before + [d.id];
        forall a, b | 0 <= a < b < |ids|
          ensures ids[a] != ids[b]
        {
          if b == |before| {
            assert ids[a] == before[a] && ids[a] in before;
          } else {
            assert ids[a] == before[a] && ids[b] == before[b];
          }
        }
      } else {
        assert ids == before;
      }
    }
  }

  /** Message of the TypeError raised by `d.data().txHash` on a payout
      document that does not exist. */
  const MissingPayout := JsError("TypeError", "Cannot read property 'txHash' of undefined")
  const ClaimConflict := "set claim fail"

  /** A payout document that exists and has no truthy `txHash`. */
  predicate Claimable(payouts: map<string, Document>, id: string)
  {
    id in payouts && !Truthy(Field(payouts[id], "txHash"))
  }

  /** The read phase of the claim transaction: the error of the first id (in
      list order) whose document is missing or already has a `txHash`. */
  function ClaimCheck(payouts: map<string, Document>, ids: seq<string>): (r: Option<JsError>)
    ensures r.None? <==> forall i :: 0 <= i < |ids| ==> Claimable(payouts, ids[i])
    ensures r.Some? ==> r.value == MissingPayout || r.value == Thrown(ClaimConflict)
  {
    if ids == [] then None
    else if ids[0] !in payouts then Some(MissingPayout)
    else if Truthy(Field(payouts[ids[0]], "txHash")) then Some(Thrown(ClaimConflict))
    else
      assert forall i :: 1 <= i < |ids| ==> ids[i] == ids[1..][i - 1];
      ClaimCheck(payouts, ids[1..])
  }

  /** `t.update(ref, { txHash: 'pending' })` on one payout document. */
  function Stamp(payouts: map<string, Document>, id: string): (r: map<string, Document>)
    ensures r.Keys == payouts.Keys
    ensures forall other :: other in payouts && other != id ==> r[other] == payouts[other]
    ensures id in payouts ==>
      && r[id].Keys == payouts[id].Keys + {"txHash"} && r[id]["txHash"] == Str("pending")
      && (forall f :: f in payouts[id] && f != "txHash" ==> r[id][f] == payouts[id][f])
  {
    if id in payouts then payouts[id := payouts[id]["txHash" := Str("pending")]] else payouts
  }

  /** The write phase: every listed document gets `txHash: 'pending'`, its
      other fields and all other documents stay as they were. */
  function Stamped(payouts: map<string, Document>, ids: seq<string>): (r: map<string, Document>)
    ensures r.Keys == payouts.Keys
    ensures forall id :: id in payouts ==>
      r[id] == if id in ids then payouts[id]["txHash" := Str("pending")] else payouts[id]
  {
    if ids == [] then payouts
    else
      var prev := Stamped(payouts, ids[..|ids| - 1]);
      var last := ids[|ids| - 1];
      assert forall id :: id in ids <==> id in ids[..|ids| - 1] || id == last;
      if last in prev then
        assert forall id :: id in payouts && id in ids[..|ids| - 1] ==>
          prev[id]["txHash" := Str("pending")] == payouts[id]["txHash" := Str("pending")];
        Stamp(prev, last)
      else Stamp(prev, last)
  }

  /** The read phase of the claim transaction over the documents it sees:
      the first missing or already-claimed id ends it with that error. */
  method CheckClaims(docs: map<string, Document>, ids: seq<string>) returns (error: Option<JsError>)
    ensures error == ClaimCheck(docs, ids)
  {
    error := None;
    var i := 0;
    while i < |ids| && error.None?
      invariant 0 <= i <= |ids|
      invariant error.None? ==> ClaimCheck(docs, ids) == ClaimCheck(docs, ids[i..])
      invariant error.Some? ==> error == ClaimCheck(docs, ids)
      decreases |ids| - i
    {
      assert ids[i..][1..] == ids[i + 1..];
      if ids[i] !in docs {
        error := Some(MissingPayout);
      } else if Truthy(Field(docs[ids[i]], "txHash")) {
        error := Some(Thrown(ClaimConflict));
      }
      i := i + 1;
    }
  }

  /** The write phase: `txHash: 'pending'` on each listed document in turn. */
  method StampAll(payouts: Collection, ids: seq<string>)
    modifies payouts
    ensures payouts.docs == Stamped(old(payouts.docs), ids)
  {
    for j := 0 to |ids|
      invariant payouts.docs == Stamped(old(payouts.docs), ids[..j])
    {
      assert ids[..j + 1][..j] == ids[..j];
      payouts.docs := Stamp(payouts.docs, ids[j]);
    }
    assert ids[..|ids|] == ids;
  }

  /** The claim transaction of one receiver: read every payout document and
      abort before any write if one is missing or already claimed; otherwise
      stamp them all `'pending'`. */
  method ClaimPayouts(payouts: Collection, ids: seq<string>) returns (error: Option<JsError>)
    modifies payouts
    ensures error == ClaimCheck(old(payouts.docs), ids)
    ensures error.Some? ==> payouts.docs == old(payouts.docs)
    ensures error.None? ==> payouts.docs == Stamped(old(payouts.docs), ids)
  {
    error := CheckClaims(payouts.docs, ids);
    if error.None? {
      StampAll(payouts, ids);
    }
  }

  /** Once a claim has gone through, any later claim that includes one of its
      ids fails: a payout record is claimed by at most one transfer. */
  lemma ClaimIsExclusive(payouts: map<string, Document>, ids: seq<string>, later: seq<string>, j: nat)
    requires ClaimCheck(payouts, ids).None?
    requires j < |later| && later[j] in ids
    ensures ClaimCheck(Stamped(payouts, ids), later).Some?
  {
    var id := later[j];
    var k :| 0 <= k < |ids| && ids[k] == id;
    assert Claimable(payouts, ids[k]);
    assert !Claimable(Stamped(payouts, ids), later[j]);
  }

  /** What the handler needs besides the stores: the sending account, the
      token contract address, the fee hint, the transaction hash function and
      the ABI encoder of `transfer(wallet, amount)`, which may throw. */
  datatype DispatchEnv = DispatchEnv(account: EvmDispatch.Account, contract: string, feeHint: int,
                                     keccak: EvmDispatch.SignedTx -> string,
                                     encodeTransfer: (string, int) -> Result<string, JsError>)

  /** What became of one receiver; every error is caught and logged. */
  datatype ReceiverOutcome =
    | ClaimFailed(error: JsError)
    | EncodeFailed(error: JsError)
    | Dispatched(outcome: EvmDispatch.EvmOutcome, attempts: seq<EvmDispatch.SignedTx>)

  /** The payout documents, the transaction-log documents, the replies the
      node has yet to give, and the outcomes so far. */
  datatype QueryState = QueryState(payouts: map<string, Document>, txLog: map<string, Document>,
                                   net: EvmDispatch.EvmNetwork, outcomes: seq<ReceiverOutcome>)

  /** One iteration of the receiver loop: claim, encode, dispatch. A failed
      claim changes nothing; once the claim has gone through, its records stay
      `'pending'` whatever happens to the transfer. */
  function ProcessReceiver(s: QueryState, wallet: string, r: Receiver, env: DispatchEnv): (t: QueryState)
    ensures |t.outcomes| == |s.outcomes| + 1 && t.outcomes[..|s.outcomes|] == s.outcomes
    ensures t.outcomes[|s.outcomes|].ClaimFailed? <==> ClaimCheck(s.payouts, r.payoutIds).Some?
    ensures t.payouts == if ClaimCheck(s.payouts, r.payoutIds).None? then Stamped(s.payouts, r.payoutIds) else s.payouts
    ensures !t.outcomes[|s.outcomes|].Dispatched? ==> t.txLog == s.txLog && t.net == s.net
    ensures t.txLog.Keys == s.txLog.Keys && CountersNotLowered(s.txLog, t.txLog)
  {
    match ClaimCheck(s.payouts, r.payoutIds)
    case Some(e) => s.(outcomes := s.outcomes + [ClaimFailed(e)])
    case None =>
      var payouts := Stamped(s.payouts, r.payoutIds);
      match env.encodeTransfer(wallet, r.amount)
      case Failure(e) => s.(payouts := payouts, outcomes := s.outcomes + [EncodeFailed(e)])
      case Success(txData) =>
        EvmDispatch.SendWithLoopRaisesCounter(s.txLog, env.account, env.contract, txData, env.feeHint, env.keccak, s.net);
        var d := EvmDispatch.SendWithLoop(s.txLog, env.account, env.contract, txData, env.feeHint, env.keccak, s.net);
        QueryState(payouts, d.docs, d.rest, s.outcomes + [Dispatched(d.out, d.attempts)])
  }

  /** The receiver loop over `wallets`, in order. */
  function ProcessAll(s: QueryState, wallets: seq<string>, receivers: map<string, Receiver>, env: DispatchEnv): (t: QueryState)
    requires forall i :: 0 <= i < |wallets| ==> wallets[i] in receivers
    ensures |t.outcomes| == |s.outcomes| + |wallets| && t.outcomes[..|s.outcomes|] == s.outcomes
    ensures t.payouts.Keys == s.payouts.Keys && t.txLog.Keys == s.txLog.Keys
    ensures CountersNotLowered(s.txLog, t.txLog)
  {
    if wallets == [] then s
    else
      var prev := ProcessAll(s, wallets[..|wallets| - 1], receivers, env);
      var t := ProcessReceiver(prev, wallets[|wallets| - 1], receivers[wallets[|wallets| - 1]], env);
      assert t.outcomes[..|s.outcomes|] == prev.outcomes[..|s.outcomes|];
      t
  }

  /** `handleQuery(docs)` on the payout and transaction-log collections. */
  method HandleQuery(payouts: Collection, txLog: Collection, docs: seq<PayoutRecord>, env: DispatchEnv,
                     net: EvmDispatch.EvmNetwork)
    returns (outcomes: seq<ReceiverOutcome>, rest: EvmDispatch.EvmNetwork)
    requires payouts != txLog
    modifies payouts, txLog
    ensures var g := Grouping(docs);
      QueryState(payouts.docs, txLog.docs, rest, outcomes) ==
      ProcessAll(QueryState(old(payouts.docs), old(txLog.docs), net, []), g.wallets, g.receivers, env)
  {
    var wallets, senderMap := GroupByWallet(docs);
    ghost var s0 := QueryState(payouts.docs, txLog.docs, net, []);
    outcomes, rest := [], net;
    for i := 0 to |wallets|
      invariant QueryState(payouts.docs, txLog.docs, rest, outcomes) == ProcessAll(s0, wallets[..i], senderMap, env)
    {
      assert wallets[..i + 1][..i] == wallets[..i];
      var wallet := wallets[i];
      var data := senderMap[wallet];
      var claimError := ClaimPayouts(payouts, data.payoutIds);
      if claimError.Some? {
        outcomes := outcomes + [ClaimFailed(claimError.value)];
        continue;
      }
      var txData := env.encodeTransfer(wallet, data.amount);
      if txData.Failure? {
        outcomes := outcomes + [EncodeFailed(txData.error)];
        continue;
      }
      var out, attempts, netRest := EvmDispatch.SendTransactionWithLoop(txLog, env.account, env.contract, txData.value,
                                                                         env.feeHint, env.keccak, rest);
      rest := netRest;
      outcomes := outcomes + [Dispatched(out, attempts)];
    }
    assert wallets[..|wallets|] == wallets;
  }

  /** `id` is listed by the entry of one of `wallets`. */
  ghost predicate InGroups(id: string, wallets: seq<string>, receivers: map<string, Receiver>)
    requires forall i :: 0 <= i < |wallets| ==> wallets[i] in receivers
  {
    exists i :: 0 <= i < |wallets| && id in receivers[wallets[i]].payoutIds
  }

  /** No id is listed by the entries of two different positions of `wallets`. */
  ghost predicate DisjointGroups(wallets: seq<string>, receivers: map<string, Receiver>)
    requires forall i :: 0 <= i < |wallets| ==> wallets[i] in receivers
  {
    forall i, j, id :: 0 <= i < |wallets| && 0 <= j < |wallets| && i != j && id in receivers[wallets[i]].payoutIds ==>
      id !in receivers[wallets[j]].payoutIds
  }

  /** Every outcome from position `from` on is past its claim. */
  ghost predicate ClaimsHeld(outcomes: seq<ReceiverOutcome>, from: nat)
  {
    forall n :: from <= n < |outcomes| ==> !outcomes[n].ClaimFailed?
  }

  /** When the id lists are disjoint and every listed record starts out
      claimable, exactly the listed records end up `'pending'`, every other
      field and document untouched. */
  lemma {:induction false} StampedWhenDisjoint(s: QueryState, wallets: seq<string>,
                                               receivers: map<string, Receiver>, env: DispatchEnv)
    requires forall i :: 0 <= i < |wallets| ==> wallets[i] in receivers
    requires DisjointGroups(wallets, receivers)
    requires forall i, id :: 0 <= i < |wallets| && id in receivers[wallets[i]].payoutIds ==> Claimable(s.payouts, id)
    ensures var t := ProcessAll(s, wallets, receivers, env);
      forall id :: id in s.payouts ==>
        t.payouts[id] == if InGroups(id, wallets, receivers) then s.payouts[id]["txHash" := Str("pending")]
                         else s.payouts[id]
    decreases |wallets|, 1
  {
    if wallets != [] {
      var init := wallets[..|wallets| - 1];
      var w := wallets[|wallets| - 1];
      var ids := receivers[w].payoutIds;
      assert forall i :: 0 <= i < |init| ==> init[i] == wallets[i];
      StampedWhenDisjoint(s, init, receivers, env);
      LastClaimSucceeds(s, wallets, receivers, env);
      var prev := ProcessAll(s, init, receivers, env);
      var t := ProcessAll(s, wallets, receivers, env);
      assert t == ProcessReceiver(prev, w, receivers[w], env);
      forall id | id in s.payouts
        ensures t.payouts[id] == if InGroups(id, wallets, receivers) then s.payouts[id]["txHash" := Str("pending")]
                                 else s.payouts[id]
      {
        GroupsOfPrefix(id, wallets, receivers);
      }
    }
  }

  /** Membership in the groups of `wallets` splits into its last entry and
      the rest; with disjoint lists an id of the last entry is in no other. */
  lemma GroupsOfPrefix(id: string, wallets: seq<string>, receivers: map<string, Receiver>)
    requires wallets != []
    requires forall i :: 0 <= i < |wallets| ==> wallets[i] in receivers
    requires DisjointGroups(wallets, receivers)
    ensures var init := wallets[..|wallets| - 1];
      var ids := receivers[wallets[|wallets| - 1]].payoutIds;
      && (id in ids ==> InGroups(id, wallets, receivers) && !InGroups(id, init, receivers))
      && (id !in ids ==> (InGroups(id, wallets, receivers) <==> InGroups(id, init, receivers)))
  {
    var init := wallets[..|wallets| - 1];
    assert forall i :: 0 <= i < |init| ==> init[i] == wallets[i];
    if id !in receivers[wallets[|wallets| - 1]].payoutIds && InGroups(id, wallets, receivers) {
      var i :| 0 <= i < |wallets| && id in receivers[wallets[i]].payoutIds;
      assert i < |init| && id in receivers[init[i]].payoutIds;
    }
  }

  /** Under the same conditions the claim of the last wallet goes through,
      since its records are untouched by the earlier ones. */
  lemma LastClaimSucceeds(s: QueryState, wallets: seq<string>, receivers: map<string, Receiver>, env: DispatchEnv)
    requires wallets != []
    requires forall i :: 0 <= i < |wallets| ==> wallets[i] in receivers
    requires DisjointGroups(wallets, receivers)
    requires forall i, id :: 0 <= i < |wallets| && id in receivers[wallets[i]].payoutIds ==> Claimable(s.payouts, id)
    ensures var init := wallets[..|wallets| - 1];
      ClaimCheck(ProcessAll(s, init, receivers, env).payouts, receivers[wallets[|wallets| - 1]].payoutIds).None?
    decreases |wallets|, 0
  {
    var init := wallets[..|wallets| - 1];
    var ids := receivers[wallets[|wallets| - 1]].payoutIds;
    assert forall i :: 0 <= i < |init| ==> init[i] == wallets[i];
    StampedWhenDisjoint(s, init, receivers, env);
    var prev := ProcessAll(s, init, receivers, env);
    forall id | id in ids
      ensures Claimable(prev.payouts, id)
    {
      assert Claimable(s.payouts, id);
    }
  }

  /** Under the same conditions no claim of the loop fails. */
  lemma {:induction false} ClaimsSucceedWhenDisjoint(s: QueryState, wallets: seq<string>,
                                                     receivers: map<string, Receiver>, env: DispatchEnv)
    requires forall i :: 0 <= i < |wallets| ==> wallets[i] in receivers
    requires DisjointGroups(wallets, receivers)
    requires forall i, id :: 0 <= i < |wallets| && id in receivers[wallets[i]].payoutIds ==> Claimable(s.payouts, id)
    ensures ClaimsHeld(ProcessAll(s, wallets, receivers, env).outcomes, |s.outcomes|)
  {
    if wallets != [] {
      var init := wallets[..|wallets| - 1];
      assert forall i :: 0 <= i < |init| ==> init[i] == wallets[i];
      ClaimsSucceedWhenDisjoint(s, init, receivers, env);
      LastClaimSucceeds(s, wallets, receivers, env);
      var prev := ProcessAll(s, init, receivers, env);
      var t := ProcessAll(s, wallets, receivers, env);
      assert t.outcomes == prev.outcomes + [t.outcomes[|prev.outcomes|]];
    }
  }

  /** Some kept record has id `id`. */
  ghost predicate KeptId(docs: seq<PayoutRecord>, id: string)
  {
    exists i :: 0 <= i < |docs| && Kept(docs[i]) && docs[i].id == id
  }

  /** With distinct record ids, the entries of the grouping list disjoint ids. */
  lemma GroupingDisjoint(docs: seq<PayoutRecord>)
    requires DistinctIds(docs)
    ensures var g := Grouping(docs); DisjointGroups(g.wallets, g.receivers)
  {
    GroupingCharacterised(docs);
    var g := Grouping(docs);
    forall i, j, id | 0 <= i < |g.wallets| && 0 <= j < |g.wallets| && i != j && id in g.receivers[g.wallets[i]].payoutIds
      ensures id !in g.receivers[g.wallets[j]].payoutIds
    {
      assert FirstIndex(docs, g.wallets[i]).value != FirstIndex(docs, g.wallets[j]).value;
      var a :| 0 <= a < |docs| && FiledUnder(docs[a], g.wallets[i]) && docs[a].id == id;
      assert forall b :: 0 <= b < |docs| && docs[b].id == id ==> b == a;
    }
  }

  /** The ids the grouping lists are exactly the ids of the kept records. */
  lemma GroupingListsKeptIds(docs: seq<PayoutRecord>, id: string)
    ensures var g := Grouping(docs); InGroups(id, g.wallets, g.receivers) <==> KeptId(docs, id)
  {
    GroupingCharacterised(docs);
    var g := Grouping(docs);
    if KeptId(docs, id) {
      var a :| 0 <= a < |docs| && Kept(docs[a]) && docs[a].id == id;
      var k := WalletKey(docs[a]);
      assert FiledUnder(docs[a], k);
      assert k in g.wallets;
      var w :| 0 <= w < |g.wallets| && g.wallets[w] == k;
      assert id in g.receivers[g.wallets[w]].payoutIds;
    }
  }

  /** `handleQuery` over records with distinct ids that are all claimable:
      every claim goes through, and exactly the kept records end up
      `'pending'` (skipped records and unrelated documents are untouched),
      whatever happens to the transfers. */
  lemma EveryKeptRecordClaimed(s: QueryState, docs: seq<PayoutRecord>, env: DispatchEnv)
    requires DistinctIds(docs)
    requires forall i :: 0 <= i < |docs| && Kept(docs[i]) ==> Claimable(s.payouts, docs[i].id)
    ensures var g := Grouping(docs);
      var t := ProcessAll(s, g.wallets, g.receivers, env);
      && ClaimsHeld(t.outcomes, |s.outcomes|)
      && (forall id :: id in s.payouts ==>
            t.payouts[id] == if KeptId(docs, id) then s.payouts[id]["txHash" := Str("pending")] else s.payouts[id])
  {
    GroupingCharacterised(docs);
    GroupingDisjoint(docs);
    var g := Grouping(docs);
    forall i, id | 0 <= i < |g.wallets| && id in g.receivers[g.wallets[i]].payoutIds
      ensures Claimable(s.payouts, id)
    {
      var a :| 0 <= a < |docs| && FiledUnder(docs[a], g.wallets[i]) && docs[a].id == id;
    }
    ClaimsSucceedWhenDisjoint(s, g.wallets, g.receivers, env);
    StampedWhenDisjoint(s, g.wallets, g.receivers, env);
    forall id | id in s.payouts
      ensures InGroups(id, g.wallets, g.receivers) <==> KeptId(docs, id)
    {
      GroupingListsKeptIds(docs, id);
    }
  }
}
