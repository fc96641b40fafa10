/** Values shared by every route of the application: optional values and the
    JavaScript notion of a "truthy" optional string. */
module Common {

  datatype Option<+T> = None | Some(value: T)
  {
    function GetOr(default: T): T
    {
      match this
      case Some(v) => v
      case None => default
    }
  }

  /** An optional string field of a JSON body or of a parsed page is "truthy"
      exactly when it is present and not the empty string (`!x` is false). */
  predicate Truthy(s: Option<string>)
  {
    s.Some? && s.value != ""
  }

  /** A JSON error reply: an HTTP status and the `error` message of the body. */
  datatype Failure = Failure(status: nat, error: string)
}
