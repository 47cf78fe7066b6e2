/** The persisted per-sender sequence counter (nonce counter) shared by both
    ledger back ends: a document `!counter_<address>` in the transaction-log
    collection whose `value` field is the next sequence number to hand out. */
module SequenceCounter {
  import opened Js
  import opened Store

  /** Message of the TypeError raised when a counter transaction reads
      `d.data().value` on a counter document that does not exist. */
  const MissingCounter := JsError("TypeError", "Cannot read property 'value' of undefined")

  function CounterKey(address: string): string
  {
    "!counter_" + address
  }

  /** The counter stored under `key`, when that document exists and holds a number. */
  function CounterValue(docs: map<string, Document>, key: string): Option<int>
  {
    if key in docs && Field(docs[key], "value").Num? then Some(docs[key]["value"].n) else None
  }

  /** The store after `t.update(counterRef, { value: v })`: only that field of
      that document changes. */
  function SetCounter(docs: map<string, Document>, key: string, v: int): (r: map<string, Document>)
    requires key in docs
    ensures CounterValue(r, key) == Some(v)
    ensures r.Keys == docs.Keys
    ensures forall k :: k in docs && k != key ==> r[k] == docs[k]
  {
    docs[key := docs[key]["value" := Num(v)]]
  }

  /** A second update of the same counter overrides the first. */
  lemma SetCounterTwice(docs: map<string, Document>, key: string, first: int, second: int)
    requires key in docs
    ensures key in SetCounter(docs, key, first)
    ensures SetCounter(SetCounter(docs, key, first), key, second) == SetCounter(docs, key, second)
  {
    var once := SetCounter(docs, key, first);
    assert once[key]["value" := Num(second)] == docs[key]["value" := Num(second)];
  }

  /** The value reconciliation leaves behind: raised to `observed + 1` when that
      is larger, never lowered; an unparsable observation (NaN) changes nothing. */
  function Reconciled(stored: int, observed: Option<int>): (r: int)
    ensures r >= stored
    ensures observed.Some? ==> r >= observed.value + 1
    ensures r == stored || (observed.Some? && r == observed.value + 1)
  {
    if observed.Some? && observed.value + 1 > stored then observed.value + 1 else stored
  }

  /** Reconciling twice with the same observation is the same as reconciling once. */
  lemma ReconcileIdempotent(stored: int, observed: Option<int>)
    ensures Reconciled(Reconciled(stored, observed), observed) == Reconciled(stored, observed)
  {
  }

  /** An observation at or below the stored counter leaves it alone. */
  lemma ReconcileBelowIsNoOp(stored: int, observed: int)
    requires observed + 1 <= stored
    ensures Reconciled(stored, Some(observed)) == stored
  {
  }

  /** No counter of `before` is missing or lower in `after`. */
  ghost predicate CountersNotLowered(before: map<string, Document>, after: map<string, Document>)
  {
    forall k :: k in before ==>
      k in after &&
      (CounterValue(before, k).Some? ==>
         CounterValue(after, k).Some? && CounterValue(after, k).value >= CounterValue(before, k).value)
  }

  /** The allocation transaction: read the counter `v`, store `v + 1`, return `v`.
      There is no lazy creation: a missing counter document makes the
      transaction fail. */
  method Allocate(txLog: Collection, key: string) returns (r: Option<int>)
    modifies txLog
    ensures r == CounterValue(old(txLog.docs), key)
    ensures r.None? ==> txLog.docs == old(txLog.docs)
    ensures r.Some? ==> txLog.docs == SetCounter(old(txLog.docs), key, r.value + 1)
  {
    r := CounterValue(txLog.docs, key);
    if r.Some? {
      txLog.docs := SetCounter(txLog.docs, key, r.value + 1);
    }
  }

  /** The reconciliation transaction: when `observed + 1` exceeds the stored
      value, store it; otherwise write nothing. `ok` is false when the counter
      document is missing (the transaction then fails with a TypeError). */
  method Reconcile(txLog: Collection, key: string, observed: Option<int>) returns (ok: bool)
    modifies txLog
    ensures ok <==> key in old(txLog.docs)
    ensures CounterValue(old(txLog.docs), key).Some? ==>
      txLog.docs == SetCounter(old(txLog.docs), key, Reconciled(CounterValue(old(txLog.docs), key).value, observed))
    ensures CounterValue(old(txLog.docs), key).None? ==> txLog.docs == old(txLog.docs)
  {
    ok := key in txLog.docs;
    if ok {
      var stored := Field(txLog.docs[key], "value");
      if stored.Num? && observed.Some? && observed.value + 1 > stored.n {
        txLog.docs := SetCounter(txLog.docs, key, observed.value + 1);
      } else if stored.Num? {
        assert txLog.docs[key]["value" := stored] == txLog.docs[key];
        assert txLog.docs == SetCounter(txLog.docs, key, stored.n);
      }
    }
  }
}
