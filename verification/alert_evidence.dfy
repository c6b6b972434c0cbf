/**
 * Alert.getMessage: the evidence behind an alert, taken from the message still held or
 * read again through the alert's history reference.
 */
module AlertEvidence {
  import opened Wrappers
  import opened History
  import opened AlertFields

  /**
   * getMessage. A held message is returned as it is; otherwise the history reference, if
   * any, is read. A malformed-header or SQL failure of that read is swallowed and gives no
   * message; an unchecked exception is not caught and reaches the caller (Failure).
   */
  function GetMessage(s: AlertState, store: HistoryStore): (r: Result<Option<Message>, Failure>)
    ensures s.message.Some? ==> r == Success(s.message)
    ensures s.message.None? && s.historyRef.None? ==> r == Success(None)
    ensures s.message.None? && s.historyRef.Some? && store.read(s.historyRef.value).Fetched?
            ==> r == Success(Some(store.read(s.historyRef.value).value))
    ensures s.message.None? && s.historyRef.Some? && store.read(s.historyRef.value) == Failed(Unchecked)
            ==> r == Failure(Unchecked)
    ensures r.Failure? ==> r.error == Unchecked
    ensures r == Success(None) <==>
            s.message.None? && (s.historyRef.None? || store.read(s.historyRef.value) in {Failed(MalformedHeader), Failed(Sql)})
  {
    match s.message
    case Some(_) => Success(s.message)
    case None =>
      match s.historyRef
      case None => Success(None)
      case Some(h) =>
        match store.read(h)
        case Fetched(m) => Success(Some(m))
        case Failed(Unchecked) => Failure(Unchecked)
        case Failed(_) => Success(None)
  }

  /**
   * An alert restored from a row whose history record no longer exists has no evidence,
   * and asking for it raises nothing.
   */
  lemma RestoredWithoutHistoryHasNoMessage(r: RecordAlert, store: HistoryStore)
    requires store.open(r.historyId).Failed?
    ensures GetMessage(Restored(r, store), store) == Success(None)
  {
    RestoredWithoutHistory(r, store);
  }

  /** An alert restored together with its message gives that message back without reading again. */
  lemma RestoredMessageIsKept(r: RecordAlert, store: HistoryStore, h: HistoryRef, m: Message)
    requires store.open(r.historyId) == Fetched(h) && store.read(h) == Fetched(m)
    ensures GetMessage(Restored(r, store), store) == Success(Some(m))
  {
    RestoredWithMessage(r, store, h, m);
  }

  /**
   * An alert made by `new Alert(recordAlert, ref)` whose message could not be read holds
   * no message, so every getMessage reads through the reference again: a malformed-header
   * or SQL failure gives no message, an unchecked one reaches the caller.
   */
  lemma RestoredUnreadableReadsAgain(r: RecordAlert, store: HistoryStore, h: HistoryRef)
    requires store.read(h).Failed?
    ensures store.read(h).failure != Unchecked ==> GetMessage(RestoredWithRef(r, Some(h), store), store) == Success(None)
    ensures store.read(h).failure == Unchecked ==> GetMessage(RestoredWithRef(r, Some(h), store), store) == Failure(Unchecked)
  {
    RestoredWithUnreadableRef(r, store, h);
  }

  /** An alert made by `new Alert(recordAlert, null)` has no evidence, and asking raises nothing. */
  lemma RestoredWithNullRefHasNoMessage(r: RecordAlert, store: HistoryStore)
    ensures GetMessage(RestoredWithRef(r, None, store), store) == Success(None)
  {
    RestoredWithNullRef(r, store);
  }

  /**
   * The copy made by newInstance holds no message, so asking it for evidence reads the
   * shared history reference again: the answer is the original's once its message is dropped.
   */
  lemma CopyResolvesThroughHistory(s: AlertState, store: HistoryStore)
    ensures GetMessage(CopyOf(s), store) == GetMessage(s.(message := None), store)
  {
    CopyOfFields(s);
  }
}
