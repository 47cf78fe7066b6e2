/** The audit log of sent payouts (util/logger.js): one record per transaction
    hash in the transaction-log collection, written with a create-only insert
    whose failure is caught and logged. `Date.now()` is the parameter `ts`. */
module AuditLog {
  import opened Js
  import opened Store

  /** The document id of the record: the payload's `txHash`. A missing,
      non-string, empty or slash-containing hash is not a valid document id,
      and the write throws (the error is swallowed like any other). */
  function RecordKey(payload: Document): (r: Option<string>)
    ensures r.Some? <==> Field(payload, "txHash").Str? && Field(payload, "txHash").s != "" && '/' !in Field(payload, "txHash").s
    ensures r.Some? ==> Field(payload, "txHash") == Str(r.value)
  {
    match Field(payload, "txHash")
    case Str(h) => if h != "" && '/' !in h then Some(h) else None
    case _ => None
  }

  /** `{ ...defaults, ...payload }`: the payload's fields win on conflict. */
  function Overlay(defaults: Document, payload: Document): (r: Document)
    ensures r.Keys == defaults.Keys + payload.Keys
    ensures forall k :: k in payload ==> r[k] == payload[k]
    ensures forall k :: k in defaults && k !in payload ==> r[k] == defaults[k]
  {
    defaults + payload
  }

  /** The record `logEthPayoutTx` creates: the payload's own fields win, and
      the defaults fill in the rest. */
  function EthRecord(payload: Document, ts: int): (r: Document)
    ensures r.Keys == payload.Keys + {"type", "status", "ts"}
    ensures forall k :: k in payload ==> r[k] == payload[k]
    ensures r["type"] == (if "type" in payload then payload["type"] else Str("payout"))
    ensures r["status"] == (if "status" in payload then payload["status"] else Str("pending"))
    ensures r["ts"] == (if "ts" in payload then payload["ts"] else Num(ts))
  {
    Overlay(map["type" := Str("payout"), "status" := Str("pending"), "ts" := Num(ts)], payload)
  }

  /** The record `logCosmosPayoutTx` creates likewise, with `remarks`
      defaulting to the memo. */
  function CosmosRecord(payload: Document, ts: int): (r: Document)
    ensures r.Keys == payload.Keys + {"type", "status", "ts", "remarks"}
    ensures forall k :: k in payload ==> r[k] == payload[k]
    ensures r["type"] == (if "type" in payload then payload["type"] else Str("cosmosPayout"))
    ensures r["status"] == (if "status" in payload then payload["status"] else Str("pending"))
    ensures r["ts"] == (if "ts" in payload then payload["ts"] else Num(ts))
    ensures r["remarks"] == (if "remarks" in payload then payload["remarks"] else Field(payload, "memo"))
  {
    Overlay(map["type" := Str("cosmosPayout"), "status" := Str("pending"), "ts" := Num(ts),
                "remarks" := Field(payload, "memo")], payload)
  }

  /** A document the store accepts: no field holds `undefined`. */
  predicate Storable(record: Document)
  {
    forall k :: k in record ==> record[k] != Undefined
  }

  /** `dbRef.doc(txHash).create(record)` with the failure swallowed: the
      record is inserted under the payload's hash when that id is valid, free,
      and the record storable; otherwise the collection is unchanged. */
  function CreateRecord(docs: map<string, Document>, payload: Document, record: Document): (r: map<string, Document>)
    ensures forall k :: k in docs ==> k in r && r[k] == docs[k]
    ensures r.Keys <= docs.Keys + (if RecordKey(payload).Some? then {RecordKey(payload).value} else {})
    ensures r != docs <==> RecordKey(payload).Some? && RecordKey(payload).value !in docs && Storable(record)
    ensures r != docs ==> r[RecordKey(payload).value] == record
  {
    match RecordKey(payload)
    case None => docs
    case Some(key) =>
      if key in docs || !Storable(record) then docs
      else
        assert key in docs[key := record] && key !in docs;
        docs[key := record]
  }

  /** `logEthPayoutTx(payload)` with the failure swallowed. */
  method LogEthPayoutTx(txLog: Collection, payload: Document, ts: int)
    modifies txLog
    ensures txLog.docs == CreateRecord(old(txLog.docs), payload, EthRecord(payload, ts))
  {
    var key := RecordKey(payload);
    if key.None? {
      return;
    }
    var record := EthRecord(payload, ts);
    if key.value in txLog.docs || !Storable(record) {
      return;
    }
    txLog.docs := txLog.docs[key.value := record];
  }

  /** `logCosmosPayoutTx(payload)` with the failure swallowed. */
  method LogCosmosPayoutTx(txLog: Collection, payload: Document, ts: int)
    modifies txLog
    ensures txLog.docs == CreateRecord(old(txLog.docs), payload, CosmosRecord(payload, ts))
  {
    var key := RecordKey(payload);
    if key.None? {
      return;
    }
    var record := CosmosRecord(payload, ts);
    if key.value in txLog.docs || !Storable(record) {
      return;
    }
    txLog.docs := txLog.docs[key.value := record];
  }

  /** Once a record is written under a hash, no later write replaces it. */
  lemma RecordNeverOverwritten(docs: map<string, Document>, payload: Document, record: Document, later: Document)
    requires CreateRecord(docs, payload, record) != docs
    ensures var once := CreateRecord(docs, payload, record);
      CreateRecord(once, payload, later) == once
  {
    assert RecordKey(payload).value in CreateRecord(docs, payload, record);
  }

  /** The ethereum record is storable exactly when the payload is: the
      defaults are all defined. */
  lemma EthRecordStorable(payload: Document, ts: int)
    ensures Storable(EthRecord(payload, ts)) <==> Storable(payload)
  {
    var record := EthRecord(payload, ts);
    if Storable(payload) {
      forall k | k in record
        ensures record[k] != Undefined
      {
        if k !in payload {
          assert k in {"type", "status", "ts"};
        }
      }
    }
  }

  /** Logging the same ethereum payload twice, at any two times, leaves what
      the first call left. */
  lemma EthLoggingIdempotent(docs: map<string, Document>, payload: Document, ts: int, later: int)
    ensures var once := CreateRecord(docs, payload, EthRecord(payload, ts));
      CreateRecord(once, payload, EthRecord(payload, later)) == once
  {
    EthRecordStorable(payload, ts);
    EthRecordStorable(payload, later);
    if CreateRecord(docs, payload, EthRecord(payload, ts)) != docs {
      RecordNeverOverwritten(docs, payload, EthRecord(payload, ts), EthRecord(payload, later));
    }
  }

  /** A well-formed ethereum payload whose hash is new and whose fields are
      all defined is always recorded. */
  lemma EthPayloadRecorded(docs: map<string, Document>, payload: Document, ts: int, hash: string)
    requires Field(payload, "txHash") == Str(hash) && hash != "" && '/' !in hash && hash !in docs
    requires Storable(payload)
    ensures var r := CreateRecord(docs, payload, EthRecord(payload, ts));
      hash in r && r[hash] == EthRecord(payload, ts) && r[hash]["txHash"] == Str(hash)
  {
    EthRecordStorable(payload, ts);
  }

  /** A cosmos payload without a memo (and without its own `remarks`) yields a
      record whose `remarks` is `undefined`; the create is rejected and
      nothing is logged. */
  lemma CosmosWithoutMemoNotLogged(docs: map<string, Document>, payload: Document, ts: int)
    requires "memo" !in payload && "remarks" !in payload
    ensures CreateRecord(docs, payload, CosmosRecord(payload, ts)) == docs
  {
    var record := CosmosRecord(payload, ts);
    assert record["remarks"] == Undefined;
  }
}
