/** What the handler's outcome promises for the Find branch and for the single call
    it issues. */
module HandlerProperties {
  import opened Json
  import opened Driver
  import opened Dispatch
  import opened Handler

  /** Collecting is order-preserving: the documents of a cursor split in two are
      those of the first part followed by those of the second. */
  lemma CollectedConcat(a: seq<CursorItem>, b: seq<CursorItem>)
    ensures Collected(a + b) == Collected(a) + Collected(b)
  {
  }

  /** A Find whose cursor ends without error answers 200 with every document the
      cursor yielded, in cursor order, undecodable ones as null. */
  lemma FindReturnsAllInOrder(db: string, coll: string, body: Body, client: Client,
                              items: seq<CursorItem>)
    requires Decide(db, coll, body).Dispatch? && Decide(db, coll, body).call.op.Find?
    requires client.find(Target(db, coll), Decide(db, coll, body).call.op.filter) == Ok(Cursor(items, None))
    ensures Handle(db, coll, body, client) == Respond(StatusOK, Encoded(SliceJson(Collected(items))))
    ensures items != [] ==> Handle(db, coll, body, client).payload.result.items == Collected(items)
  {
  }

  /** An error reported by the cursor after iteration replaces the whole result,
      whatever documents were yielded before it. */
  lemma CursorErrorDiscardsDocuments(db: string, coll: string, body: Body, client: Client,
                                     items: seq<CursorItem>, message: string)
    requires Decide(db, coll, body).Dispatch? && Decide(db, coll, body).call.op.Find?
    requires client.find(Target(db, coll), Decide(db, coll, body).call.op.filter) == Ok(Cursor(items, Some(message)))
    ensures Handle(db, coll, body, client) == Respond(StatusInternalServerError, Message(message))
  {
  }

  /** A Find that matches nothing answers 200 with null: the result slice is never
      allocated. */
  lemma EmptyFindIsNull(db: string, coll: string, body: Body, client: Client)
    requires Decide(db, coll, body).Dispatch? && Decide(db, coll, body).call.op.Find?
    requires client.find(Target(db, coll), Decide(db, coll, body).call.op.filter) == Ok(Cursor([], None))
    ensures Handle(db, coll, body, client) == Respond(StatusOK, Encoded(JNull))
  {
  }

  /** The outcome of a dispatched request depends only on what the driver answers to
      that one call: two drivers that agree on it give the same response. */
  lemma OnlyTheIssuedCallMatters(db: string, coll: string, body: Body, c1: Client, c2: Client)
    requires Decide(db, coll, body).Dispatch?
    requires var call := Decide(db, coll, body).call;
             match call.op
             case InsertOne(document) => c1.insertOne(call.target, document) == c2.insertOne(call.target, document)
             case Find(filter) => c1.find(call.target, filter) == c2.find(call.target, filter)
             case UpdateMany(filter, update) =>
               c1.updateMany(call.target, filter, update) == c2.updateMany(call.target, filter, update)
             case DeleteMany(filter) => c1.deleteMany(call.target, filter) == c2.deleteMany(call.target, filter)
    ensures Handle(db, coll, body, c1) == Handle(db, coll, body, c2)
  {
  }

  /** A rejected or panicking request never reaches the driver: any two drivers give
      the same outcome. */
  lemma RejectionIgnoresDriver(db: string, coll: string, body: Body, c1: Client, c2: Client)
    requires !Decide(db, coll, body).Dispatch?
    ensures Handle(db, coll, body, c1) == Handle(db, coll, body, c2)
  {
  }
}
