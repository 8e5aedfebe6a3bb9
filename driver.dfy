/** The database client as seen from the handler: the four collection operations it
    issues, the target they address, and what the driver hands back. The driver itself
    is foreign code; here it is an oracle of total functions. */
module Driver {
  import opened Json

  /** The (database, collection) pair an operation addresses. */
  datatype Target = Target(db: string, coll: string)

  /** The four collection operations the handler can issue. */
  datatype Operation =
    | InsertOne(document: Json)
    | Find(filter: Json)
    | UpdateMany(filter: Json, update: Json)
    | DeleteMany(filter: Json)

  /** One database call: an operation against a target. */
  datatype Call = Call(target: Target, op: Operation)

  /** What a driver call returns: a value, or an error carrying its message. */
  datatype Result<T> = Ok(value: T) | Err(message: string)

  /** One document the cursor yields; decoding it into a value may fail. */
  datatype CursorItem = Decodes(document: Json) | Undecodable

  /** The documents a Find cursor yields, in order, and the error `cursor.Err()`
      reports once iteration stops (None when iteration ended normally). */
  datatype Cursor = Cursor(items: seq<CursorItem>, err: Option<string>)

  datatype Option<T> = None | Some(value: T)

  /** The driver oracle: the acknowledgment (or cursor) each operation produces. */
  datatype Client = Client(
    insertOne: (Target, Json) -> Result<Json>,
    find: (Target, Json) -> Result<Cursor>,
    updateMany: (Target, Json, Json) -> Result<Json>,
    deleteMany: (Target, Json) -> Result<Json>)
}
