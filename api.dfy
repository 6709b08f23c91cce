/** What the pages exchange with the backend and with the notification
    channel. The network itself is not modelled: every response is an input. */
module Api {
  import opened Json

  /** Identifier of a row (`transactionId` or `recurringTransactionId`),
      compared with `===`. */
  type Id = int

  /** A server-owned record as the list pages hold it: its id and its other fields. */
  datatype Row = Row(id: Id, fields: Fields)

  /** The body of a list or search response. */
  datatype PageResult = PageResult(content: seq<Row>, totalPages: int)

  /** The outcome of one HTTP call: the response data, or a thrown error with
      the HTTP status (absent for a transport failure) and the backend's
      `message`, if any. */
  datatype Response<T> = Ok(data: T) | Failed(status: Option<int>, message: Option<string>)

  const Conflict := 409

  datatype Severity = Success | Info | Warning | Error

  /** One call of `showToast(message, severity)`. */
  datatype Toast = Toast(message: string, severity: Severity)

  /** `err.response.data?.message || fallback` */
  function BackendMessageOr(message: Option<string>, fallback: string): (m: string)
    ensures message.Some? && message.value != "" ==> m == message.value
    ensures message.None? || message.value == "" ==> m == fallback
  {
    if message.Some? && message.value != "" then message.value else fallback
  }

  /** The toast a failed creation shows: a 409 becomes a warning that carries
      the backend's message (or `duplicateFallback`), anything else the
      generic error. */
  function CreationFailureToast(status: Option<int>, message: Option<string>, duplicateFallback: string): (t: Toast)
    ensures t.severity == Warning <==> status == Some(Conflict)
    ensures status == Some(Conflict) ==> t.message == BackendMessageOr(message, duplicateFallback)
    ensures status != Some(Conflict) ==> t == Toast("Failed to create transaction.", Error)
  {
    if status == Some(Conflict) then Toast(BackendMessageOr(message, duplicateFallback), Warning)
    else Toast("Failed to create transaction.", Error)
  }
}
