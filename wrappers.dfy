/** Small value wrappers shared by every module of the model. */
module Wrappers {

  /** A value that may be absent: an optional field of a record, `null`, or `undefined`. */
  datatype Option<+T> = None | Some(value: T)

  /** How an abstract asynchronous step ends: a remote call that succeeded or failed,
      or a promise that resolved or rejected. */
  datatype Outcome = Success | Failure

  /** The answer of the remote record store to a query that returns data:
      the returned row (or rows), or an error object. */
  datatype Remote<+T> = Returned(row: T) | StoreError

  /** JavaScript's `value || ''` on an optional string: a missing or empty value becomes `''`. */
  function OrEmpty(o: Option<string>): (s: string)
    ensures s == "" <==> (o == None || o == Some(""))
    ensures o.Some? && o.value != "" ==> s == o.value
  {
    match o
    case Some(v) => v
    case None => ""
  }

  /** JavaScript truthiness of an optional string field. */
  predicate Truthy(o: Option<string>) {
    o.Some? && o.value != ""
  }
}
