/** The document store as the worker sees it: collections of documents, each a
    map from field names to values. A Firestore transaction is modelled as one
    atomic method on such a collection. */
module Store {
  import opened Js

  type Document = map<string, JsValue>

  /** `doc.field`: a missing field reads as `undefined`. */
  function Field(doc: Document, name: string): JsValue
  {
    if name in doc then doc[name] else Undefined
  }

  /** One collection (the payout collection, or the transaction-log collection
      that holds both the sequence counters and the audit records). */
  class Collection {
    var docs: map<string, Document>

    constructor (initial: map<string, Document>)
      ensures docs == initial
    {
      docs := initial;
    }
  }
}
