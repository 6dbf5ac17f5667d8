/** Option and store-outcome wrappers shared by every page and route of the model. */
module Wrappers {

  /** A value that may be absent: a nullable column, a missing query parameter. */
  datatype Option<+T> = None | Some(value: T)
  {
    function GetOr(default: T): T
    {
      match this
      case Some(v) => v
      case None => default
    }
  }

  /** What a call into the hosted store reports back: nothing, or an error with its message. */
  datatype StoreResult = StoreOk | StoreError(message: string)

  /** What one delivery channel (mail service, SMS gateway) does with one message: delivers it, or
      throws with a message. */
  datatype ChannelResult = Delivered(receipt: string) | Rejected(message: string)

  /** JavaScript truthiness of an optional string: `null`, `undefined` and `""` are all falsy. */
  predicate Truthy(s: Option<string>)
  {
    s.Some? && s.value != ""
  }
}
