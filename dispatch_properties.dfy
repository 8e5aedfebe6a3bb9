/** What the handler's decision promises: the precedence of its checks, exact action
    matching, presence-by-key, the shape of the single call it issues, and two reference
    definitions it agrees with. */
module DispatchProperties {
  import opened Json
  import opened Driver
  import opened Dispatch

  /** An empty `db` is reported first, whatever `coll` and the body are. */
  lemma MissingDbFirst(coll: string, body: Body)
    ensures Decide("", coll, body) == Reject(MissingDb)
  {
  }

  /** With `db` present, an empty `coll` is reported before the body is looked at:
      the same answer for a malformed, a non-object or any object body. */
  lemma MissingCollectionBeforeBody(db: string, body: Body)
    requires db != ""
    ensures Decide(db, "", body) == Reject(MissingCollection)
  {
  }

  /** A body the decoder refused is reported with the decoder's own message, once the
      path checks pass. */
  lemma MalformedAfterPath(db: string, coll: string, error: string)
    requires db != "" && coll != ""
    ensures Decide(db, coll, Malformed(error)) == Reject(error)
  {
  }

  /** An object with no `action` key is rejected before `query` and `data` matter. */
  lemma MissingActionBeforeFields(db: string, coll: string, fields: map<string, Json>)
    requires db != "" && coll != ""
    requires "action" !in fields
    ensures Decide(db, coll, Decoded(JObject(fields))) == Reject(MissingAction)
  {
  }

  /** An operation is selected only for the exact strings "insert", "get", "upate" and
      "delete"; every other value, of any JSON type, is an unknown action. */
  lemma ExactActionNames(db: string, coll: string, fields: map<string, Json>)
    requires db != "" && coll != ""
    requires "action" in fields
    ensures Decide(db, coll, Decoded(JObject(fields))).Dispatch? ==>
              fields["action"] in {Insert, Get, Upate, Delete}
    ensures fields["action"] !in {Insert, Get, Upate, Delete} ==>
              Decide(db, coll, Decoded(JObject(fields))) == Reject(UnknownAction)
  {
  }

  /** The correctly spelled "update" is not an action the handler knows. */
  lemma UpdateSpelledCorrectlyIsUnknown(db: string, coll: string, fields: map<string, Json>)
    requires db != "" && coll != ""
    requires "action" in fields && fields["action"] == JString("update")
    ensures Decide(db, coll, Decoded(JObject(fields))) == Reject(UnknownAction)
  {
  }

  /** The field each action requires, and the message when it is missing; "upate"
      checks `query` before `data`. */
  lemma RequiredFields(db: string, coll: string, fields: map<string, Json>)
    requires db != "" && coll != "" && "action" in fields
    ensures fields["action"] == Insert && "data" !in fields ==>
              Decide(db, coll, Decoded(JObject(fields))) == Reject(MissingData)
    ensures fields["action"] in {Get, Delete} && "query" !in fields ==>
              Decide(db, coll, Decoded(JObject(fields))) == Reject(MissingQuery)
    ensures fields["action"] == Upate && "query" !in fields ==>
              Decide(db, coll, Decoded(JObject(fields))) == Reject(MissingQuery)
    ensures fields["action"] == Upate && "query" in fields && "data" !in fields ==>
              Decide(db, coll, Decoded(JObject(fields))) == Reject(MissingData)
  {
  }

  /** A field counts as present when its key exists: replacing the value of `query` or
      `data` (by null, say) never changes whether, or with what message, the request
      is rejected. */
  lemma PresenceNotValue(db: string, coll: string, fields: map<string, Json>, key: string, v: Json)
    requires key == "query" || key == "data"
    requires key in fields
    ensures Decide(db, coll, Decoded(JObject(fields))).Reject? <==>
            Decide(db, coll, Decoded(JObject(fields[key := v]))).Reject?
    ensures Decide(db, coll, Decoded(JObject(fields))).Reject? ==>
            Decide(db, coll, Decoded(JObject(fields))) ==
            Decide(db, coll, Decoded(JObject(fields[key := v])))
  {
  }

  /** Keys other than `action`, `query` and `data` are ignored. */
  lemma IgnoresOtherKeys(db: string, coll: string, fields: map<string, Json>)
    ensures Decide(db, coll, Decoded(JObject(fields))) ==
            Decide(db, coll, Decoded(JObject(map k | k in fields && k in {"action", "query", "data"} :: fields[k])))
  {
  }

  /** A dispatched update filters by `query` and sends `{"$set": data}`, never a
      replacement document. */
  lemma UpdateIsSet(db: string, coll: string, fields: map<string, Json>)
    requires Decide(db, coll, Decoded(JObject(fields))).Dispatch?
    requires Decide(db, coll, Decoded(JObject(fields))).call.op.UpdateMany?
    ensures "query" in fields && "data" in fields
    ensures Decide(db, coll, Decoded(JObject(fields))).call.op ==
            UpdateMany(fields["query"], SetDocument(fields["data"]))
  {
  }

  /** Round trip: the canonical body for an issuable operation makes the handler issue
      exactly that operation against the path's target, whatever other keys the body
      carries besides. */
  lemma RequestForDispatches(db: string, coll: string, op: Operation, extra: map<string, Json>)
    requires db != "" && coll != ""
    requires Issuable(op)
    ensures Decide(db, coll, Decoded(JObject(extra + RequestFor(op)))) ==
            Dispatch(Call(Target(db, coll), op))
  {
  }

  /** Converse: every call the handler issues is issuable, addresses the path's target,
      and comes from a body holding that call's canonical request. */
  lemma DispatchComesFromRequest(db: string, coll: string, body: Body)
    requires Decide(db, coll, body).Dispatch?
    ensures Issuable(Decide(db, coll, body).call.op)
    ensures Decide(db, coll, body).call.target == Target(db, coll)
    ensures body.Decoded? && body.value.JObject?
    ensures SubMap(RequestFor(Decide(db, coll, body).call.op), body.value.fields)
  {
  }

  /** Precedence as a whole: a request is rejected exactly when it has a problem, and
      the message is the first problem in check order. */
  lemma FirstProblemReported(db: string, coll: string, fields: map<string, Json>)
    ensures Decide(db, coll, Decoded(JObject(fields))).Reject? <==> Problems(db, coll, fields) != []
    ensures Problems(db, coll, fields) != [] ==>
              Decide(db, coll, Decoded(JObject(fields))) == Reject(Problems(db, coll, fields)[0])
  {
  }
}
