/** The validation and dispatch decision of the `Action` handler: from the path
    parameters `db` and `coll` and the decoded request body to either a rejection
    message (always answered with status 500), a panic (the body is not an object), or
    exactly one database call. */
module Dispatch {
  import opened Json
  import opened Driver

  const MissingDb := "Missing DB!"
  const MissingCollection := "Missing Collection!"
  const MissingAction := "Missing Action!"
  const MissingQuery := "Missing Query!"
  const MissingData := "Missing Data!"
  const UnknownAction := "Unknown Action!"

  /** The fixed messages the handler itself produces. */
  const Messages: set<string> :=
    {MissingDb, MissingCollection, MissingAction, MissingQuery, MissingData, UnknownAction}

  /** The request body after decoding: a JSON value, or the decoder's error. */
  datatype Body = Decoded(value: Json) | Malformed(error: string)

  datatype Decision =
    | Reject(message: string)
    | Panic
    | Dispatch(call: Call)

  /** The action names the `switch` recognises, spelled exactly as in the handler. */
  const Insert := JString("insert")
  const Get := JString("get")
  const Upate := JString("upate")
  const Delete := JString("delete")

  /** The update document sent with UpdateMany: `{"$set": data}`. */
  function SetDocument(data: Json): (u: Json)
    ensures u.JObject? && u.fields.Keys == {"$set"} && u.fields["$set"] == data
  {
    Singleton("$set", data)
  }

  /** The handler's decision. The path checks come first, then decoding, then the
      object-only lookups of `action`, `query` and `data`, then the `switch`. */
  function Decide(db: string, coll: string, body: Body): (d: Decision)
    ensures d.Dispatch? ==> d.call.target == Target(db, coll)
    ensures d.Panic? <==> db != "" && coll != "" && body.Decoded? && !body.value.JObject?
    ensures d.Reject? ==> d.message in Messages || body == Malformed(d.message)
  {
    if db == "" then Reject(MissingDb)
    else if coll == "" then Reject(MissingCollection)
    else match body
      case Malformed(e) => Reject(e)
      case Decoded(document) =>
        if !document.JObject? then Panic
        else Select(Target(db, coll), document.fields)
  }

  /** The action lookup and the `switch`, on a body that is an object. A key counts as
      present when it exists, whatever its value. */
  function Select(target: Target, fields: map<string, Json>): (d: Decision)
    ensures d.Dispatch? ==> d.call.target == target
    ensures d.Reject? ==> d.message in Messages
    ensures !d.Panic?
  {
    if "action" !in fields then Reject(MissingAction)
    else
      var action := fields["action"];
      var hasQuery := "query" in fields;
      var hasData := "data" in fields;
      if action == Insert then
        if !hasData then Reject(MissingData)
        else Dispatch(Call(target, InsertOne(fields["data"])))
      else if action == Get then
        if !hasQuery then Reject(MissingQuery)
        else Dispatch(Call(target, Find(fields["query"])))
      else if action == Upate then
        if !hasQuery then Reject(MissingQuery)
        else if !hasData then Reject(MissingData)
        else Dispatch(Call(target, UpdateMany(fields["query"], SetDocument(fields["data"]))))
      else if action == Delete then
        if !hasQuery then Reject(MissingQuery)
        else Dispatch(Call(target, DeleteMany(fields["query"])))
      else Reject(UnknownAction)
  }

  // ---------------------------------------------------------------------------
  // Reference definition 1: the canonical request body for an operation.

  /** The operations the handler can issue at all: an update is always a `$set`. */
  predicate Issuable(op: Operation) {
    op.UpdateMany? ==> op.update.JObject? && op.update.fields.Keys == {"$set"}
  }

  /** The body a client sends to have `op` issued: the action name and the fields
      that action requires. */
  function RequestFor(op: Operation): (fields: map<string, Json>)
    requires Issuable(op)
    ensures "action" in fields
  {
    match op
    case InsertOne(document) => map["action" := Insert, "data" := document]
    case Find(filter) => map["action" := Get, "query" := filter]
    case UpdateMany(filter, update) =>
      map["action" := Upate, "query" := filter, "data" := update.fields["$set"]]
    case DeleteMany(filter) => map["action" := Delete, "query" := filter]
  }

  /** `m` holds every entry of `sub`. */
  predicate SubMap(sub: map<string, Json>, m: map<string, Json>) {
    forall k :: k in sub ==> k in m && m[k] == sub[k]
  }

  // ---------------------------------------------------------------------------
  // Reference definition 2: every failing check, in the order the handler runs them.

  /** Whether the action needs `query` / `data`; None for an unrecognised action. */
  function Needs(action: Json): (r: Option<(bool, bool)>)
  {
    if action == Insert then Some((false, true))
    else if action == Get || action == Delete then Some((true, false))
    else if action == Upate then Some((true, true))
    else None
  }

  /** Every problem the request has, in check order, each check judged on its own. */
  function Problems(db: string, coll: string, fields: map<string, Json>): seq<string>
  {
    (if db == "" then [MissingDb] else [])
    + (if coll == "" then [MissingCollection] else [])
    + (if "action" !in fields then [MissingAction]
       else match Needs(fields["action"])
         case None => [UnknownAction]
         case Some((needsQuery, needsData)) =>
           (if needsQuery && "query" !in fields then [MissingQuery] else [])
           + (if needsData && "data" !in fields then [MissingData] else []))
  }
}
