/**
 * The collaborators of Alert that live outside it, reduced to what Alert reads from them:
 * the captured HTTP message, the reference to a persisted history row, the persisted alert
 * row, and the history store that resolves references to messages.
 */
module History {
  import opened Wrappers

  /** A HistoryReference, known to Alert only through its history id. */
  datatype HistoryRef = HistoryRef(historyId: int)

  /**
   * An HttpMessage, reduced to the request method (`requestMethod`), the request body, the request URI
   * and the history reference the message carries (if any).
   */
  datatype Message = Message(requestMethod: string, body: string, uri: string, historyRef: Option<HistoryRef>)

  /**
   * How a read of the history store can fail: HttpMalformedHeaderException (the usual sign
   * that the row no longer exists), SQLException, or any unchecked exception.
   */
  datatype Failure = MalformedHeader | Sql | Unchecked

  /** The outcome of a call into the history store: a value, or the exception it threw. */
  datatype Fetch<T> = Fetched(value: T) | Failed(failure: Failure)

  /**
   * The history store. `open` is `new HistoryReference(historyId)`, which reads the row and
   * can throw; `read` is `HistoryReference.getHttpMessage()`.
   */
  datatype HistoryStore = HistoryStore(open: int -> Fetch<HistoryRef>, read: HistoryRef -> Fetch<Message>)

  /** A RecordAlert row; its text columns may hold NULL. */
  datatype RecordAlert = RecordAlert(
    alertId: int,
    pluginId: int,
    risk: int,
    reliability: int,
    alert: Option<string>,
    description: Option<string>,
    uri: Option<string>,
    param: Option<string>,
    attack: Option<string>,
    otherInfo: Option<string>,
    solution: Option<string>,
    reference: Option<string>,
    historyId: int)
}
