/** The `Action` handler end to end: the decision, the one driver call it issues, and
    the response it writes, as a value. The Find branch drains the cursor in a loop. */
module Handler {
  import opened Json
  import opened Driver
  import opened Dispatch

  /** The response body: `{"message": ...}` on failure, or the encoded result. */
  datatype Payload = Message(text: string) | Encoded(result: Json)

  /** What the handler does: write a status and a body, or panic (a body that is not
      an object). */
  datatype Outcome = Respond(status: int, payload: Payload) | Panicked

  const StatusOK := 200
  const StatusInternalServerError := 500

  /** The value appended for one cursor document: its decoded value, or the zero
      interface value (null) when decoding failed, whose error the handler ignores. */
  function ItemValue(item: CursorItem): Json
  {
    match item
    case Decodes(document) => document
    case Undecodable => JNull
  }

  /** Every document the cursor yields, in cursor order, one entry per item. */
  function Collected(items: seq<CursorItem>): (documents: seq<Json>)
    ensures |documents| == |items|
    ensures forall i :: 0 <= i < |items| ==> documents[i] == ItemValue(items[i])
  {
    if items == [] then [] else [ItemValue(items[0])] + Collected(items[1..])
  }

  /** A Go slice as JSON: the slice the loop builds starts nil, and a nil slice
      encodes as null, so an empty result is null rather than []. */
  function SliceJson(documents: seq<Json>): Json
  {
    if documents == [] then JNull else JArray(documents)
  }

  /** Maps a driver acknowledgment or error to the response. */
  function Reply(r: Result<Json>): Outcome
  {
    match r
    case Ok(ack) => Respond(StatusOK, Encoded(ack))
    case Err(message) => Respond(StatusInternalServerError, Message(message))
  }

  /** The response to a Find: an error opening the cursor, or one reported by the
      cursor after iteration, replaces the whole result; otherwise every document. */
  function FindReply(r: Result<Cursor>): Outcome
  {
    match r
    case Err(message) => Respond(StatusInternalServerError, Message(message))
    case Ok(cursor) =>
      match cursor.err
      case Some(message) => Respond(StatusInternalServerError, Message(message))
      case None => Respond(StatusOK, Encoded(SliceJson(Collected(cursor.items))))
  }

  /** The driver's acknowledgment of an InsertOne, UpdateMany or DeleteMany call: the
      client function for the call's operation, applied to the call's target and
      arguments. */
  function Acknowledgment(client: Client, call: Call): Result<Json>
    requires !call.op.Find?
  {
    var t := call.target;
    match call.op
    case InsertOne(document) => client.insertOne(t, document)
    case UpdateMany(filter, update) => client.updateMany(t, filter, update)
    case DeleteMany(filter) => client.deleteMany(t, filter)
  }

  /** Issues one call through the driver and turns its answer into the response. */
  function Perform(client: Client, call: Call): Outcome
  {
    if call.op.Find? then FindReply(client.find(call.target, call.op.filter))
    else Reply(Acknowledgment(client, call))
  }

  /** The handler's outcome. Only statuses 200 and 500 are ever written, 200 only
      after a dispatch, and every rejection is a 500 carrying its message. A dispatched
      InsertOne, UpdateMany or DeleteMany answers 200 with the driver's acknowledgment or
      500 with the driver's error; a Find whose cursor cannot be opened answers 500 with
      the driver's error. */
  function Handle(db: string, coll: string, body: Body, client: Client): (o: Outcome)
    ensures o.Respond? ==> o.status in {StatusOK, StatusInternalServerError}
    ensures o.Respond? && o.status == StatusOK ==> Decide(db, coll, body).Dispatch?
    ensures o.Panicked? <==> Decide(db, coll, body).Panic?
    ensures Decide(db, coll, body).Reject? ==>
              o == Respond(StatusInternalServerError, Message(Decide(db, coll, body).message))
    ensures Decide(db, coll, body).Dispatch? && !Decide(db, coll, body).call.op.Find? ==>
              var ack := Acknowledgment(client, Decide(db, coll, body).call);
              && (ack.Ok? ==> o == Respond(StatusOK, Encoded(ack.value)))
              && (ack.Err? ==> o == Respond(StatusInternalServerError, Message(ack.message)))
    ensures Decide(db, coll, body).Dispatch? && Decide(db, coll, body).call.op.Find? ==>
              var found := client.find(Target(db, coll), Decide(db, coll, body).call.op.filter);
              found.Err? ==> o == Respond(StatusInternalServerError, Message(found.message))
  {
    match Decide(db, coll, body)
    case Reject(message) => Respond(StatusInternalServerError, Message(message))
    case Panic => Panicked
    case Dispatch(call) => Perform(client, call)
  }

  /** The `for cursor.Next` loop: appends each yielded document, in order, ignoring
      decode errors. */
  method DrainCursor(cursor: Cursor) returns (documents: seq<Json>)
    ensures documents == Collected(cursor.items)
  {
    documents := [];
    var i := 0;
    while i < |cursor.items|
      invariant 0 <= i <= |cursor.items|
      invariant documents == Collected(cursor.items[..i])
    {
      var document := ItemValue(cursor.items[i]);
      documents := documents + [document];
      i := i + 1;
    }
    assert cursor.items[..i] == cursor.items;
  }

  /** The handler: decides, issues at most one call (recorded in `calls`), drains the
      cursor for a Find before looking at its error, and returns the outcome. */
  method Serve(db: string, coll: string, body: Body, client: Client)
    returns (outcome: Outcome, calls: seq<Call>)
    ensures outcome == Handle(db, coll, body, client)
    ensures Decide(db, coll, body).Dispatch? ==> calls == [Decide(db, coll, body).call]
    ensures !Decide(db, coll, body).Dispatch? ==> calls == []
  {
    calls := [];
    var decision := Decide(db, coll, body);
    match decision {
      case Reject(message) =>
        outcome := Respond(StatusInternalServerError, Message(message));
      case Panic =>
        outcome := Panicked;
      case Dispatch(call) =>
        calls := calls + [call];
        var t := call.target;
        match call.op {
          case InsertOne(document) =>
            outcome := Reply(client.insertOne(t, document));
          case Find(filter) =>
            var r := client.find(t, filter);
            if r.Err? {
              outcome := Respond(StatusInternalServerError, Message(r.message));
            } else {
              var documents := DrainCursor(r.value);
              if r.value.err.Some? {
                outcome := Respond(StatusInternalServerError, Message(r.value.err.value));
              } else {
                outcome := Respond(StatusOK, Encoded(SliceJson(documents)));
              }
            }
          case UpdateMany(filter, update) =>
            outcome := Reply(client.updateMany(t, filter, update));
          case DeleteMany(filter) =>
            outcome := Reply(client.deleteMany(t, filter));
        }
    }
  }
}
