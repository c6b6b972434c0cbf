/**
 * The fields of a scanner Alert as one value, and what each constructor and setter of
 * Alert makes of them. The class Scanner.Alert holds the same fields and its methods are
 * proved to change them exactly as these functions say.
 */
module AlertFields {
  import opened Wrappers
  import opened History

  const RISK_INFO: int := 0
  const RISK_LOW: int := 1
  const RISK_MEDIUM: int := 2
  const RISK_HIGH: int := 3

  const FALSE_POSITIVE: int := 0
  const SUSPICIOUS: int := 1
  const WARNING: int := 2

  const MSG_RISK: seq<string> := ["Informational", "Low", "Medium", "High"]
  const MSG_RELIABILITY: seq<string> := ["False Positive", "Suspicious", "Warning"]

  /**
   * A snapshot of every field of an Alert. `attack` is the only text field that can be null
   * (setAttack stores its argument unchecked); `requestMethod` (the Java field `method`),
   * `postData` and `msgUri` are the values cached from the last message given to setMessage.
   */
  datatype AlertState = AlertState(
    alertId: int,
    pluginId: int,
    alert: string,
    risk: int,
    reliability: int,
    description: string,
    uri: string,
    param: string,
    attack: Option<string>,
    otherInfo: string,
    solution: string,
    reference: string,
    message: Option<Message>,
    sourceHistoryId: int,
    historyRef: Option<HistoryRef>,
    requestMethod: Option<string>,
    postData: Option<string>,
    msgUri: Option<string>)

  /** The discipline of the text setters: a null argument leaves the field as it was. */
  function Keep(current: string, arg: Option<string>): string
  {
    match arg
    case Some(v) => v
    case None => current
  }

  /** `new Alert(pluginId)`: every field at its declared initial value. */
  function Initial(pluginId: int): AlertState
  {
    AlertState(-1, pluginId, "", RISK_INFO, WARNING, "", "", "", Some(""), "", "", "",
               None, 0, None, None, None, None)
  }

  /** The seven detail setters applied in turn (setDescription ... setReference). */
  function WithTexts(s: AlertState, description: Option<string>, uri: Option<string>, param: Option<string>,
                     attack: Option<string>, otherInfo: Option<string>, solution: Option<string>,
                     reference: Option<string>): AlertState
  {
    s.(description := Keep(s.description, description),
       uri := Keep(s.uri, uri),
       param := Keep(s.param, param),
       attack := attack,
       otherInfo := Keep(s.otherInfo, otherInfo),
       solution := Keep(s.solution, solution),
       reference := Keep(s.reference, reference))
  }

  /**
   * setMessage: a message is held and its method, body and URI cached; null drops only the
   * held message and keeps the cached values.
   */
  function WithMessage(s: AlertState, msg: Option<Message>): AlertState
  {
    match msg
    case Some(m) => s.(message := msg, requestMethod := Some(m.requestMethod), postData := Some(m.body), msgUri := Some(m.uri))
    case None => s.(message := None)
  }

  /** The public setDetail: the texts, then the message, then the message's history reference. */
  function WithDetail(s: AlertState, description: Option<string>, uri: Option<string>, param: Option<string>,
                      attack: Option<string>, otherInfo: Option<string>, solution: Option<string>,
                      reference: Option<string>, msg: Option<Message>): AlertState
  {
    var t := WithMessage(WithTexts(s, description, uri, param, attack, otherInfo, solution, reference), msg);
    match msg
    case Some(m) => t.(historyRef := m.historyRef)
    case None => t
  }

  /** The private setDetail: the texts, then the history reference as given (even null). */
  function WithDetailRef(s: AlertState, description: Option<string>, uri: Option<string>, param: Option<string>,
                         attack: Option<string>, otherInfo: Option<string>, solution: Option<string>,
                         reference: Option<string>, href: Option<HistoryRef>): AlertState
  {
    WithTexts(s, description, uri, param, attack, otherInfo, solution, reference).(historyRef := href)
  }

  /** setHistoryRef: a non-null reference also sets sourceHistoryId to its history id. */
  function WithHistoryRef(s: AlertState, href: Option<HistoryRef>): AlertState
  {
    match href
    case Some(h) => s.(historyRef := href, sourceHistoryId := h.historyId)
    case None => s.(historyRef := None)
  }

  /** `new Alert(pluginId, risk, reliability, alert)`. */
  function Created(pluginId: int, risk: int, reliability: int, alert: Option<string>): AlertState
  {
    var s := Initial(pluginId).(risk := risk, reliability := reliability);
    s.(alert := Keep(s.alert, alert))
  }

  /** The four-field constructor applied to a persisted row, plus the row's alert id. */
  function FromRow(r: RecordAlert): AlertState
  {
    Created(r.pluginId, r.risk, r.reliability, r.alert).(alertId := r.alertId)
  }

  /**
   * `new Alert(recordAlert)`: the history reference is opened from the row's history id and
   * its message read; any failure is swallowed and leaves the remaining fields as they were.
   */
  function Restored(r: RecordAlert, store: HistoryStore): AlertState
  {
    var base := FromRow(r);
    match store.open(r.historyId)
    case Failed(_) => base
    case Fetched(h) =>
      var withRef := base.(historyRef := Some(h));
      match store.read(h)
      case Failed(_) => withRef
      case Fetched(m) =>
        WithDetail(withRef, r.description, r.uri, r.param, r.attack, r.otherInfo, r.solution, r.reference, Some(m))
  }

  /**
   * `new Alert(recordAlert, ref)`: the given reference is kept; its message, when one can be
   * read, is attached through the public setDetail; any failure is swallowed.
   */
  function RestoredWithRef(r: RecordAlert, ref: Option<HistoryRef>, store: HistoryStore): AlertState
  {
    var base := FromRow(r).(historyRef := ref);
    match ref
    case None =>
      WithDetail(base, r.description, r.uri, r.param, r.attack, r.otherInfo, r.solution, r.reference, None)
    case Some(h) =>
      match store.read(h)
      case Failed(_) => base
      case Fetched(m) =>
        WithDetail(base, r.description, r.uri, r.param, r.attack, r.otherInfo, r.solution, r.reference, Some(m))
  }

  /** newInstance: a fresh alert given the rank, the title, the details and the history reference. */
  function CopyOf(s: AlertState): AlertState
  {
    WithDetailRef(Created(s.pluginId, s.risk, s.reliability, Some(s.alert)),
                  Some(s.description), Some(s.uri), Some(s.param), s.attack, Some(s.otherInfo),
                  Some(s.solution), Some(s.reference), s.historyRef)
  }

  /**
   * The copy made by newInstance agrees with the original on every field except the alert
   * id, the source history id, the held message and the three values cached from it.
   */
  lemma CopyOfFields(s: AlertState)
    ensures CopyOf(s) == s.(alertId := -1, sourceHistoryId := 0, message := None,
                            requestMethod := None, postData := None, msgUri := None)
  {
  }

  /**
   * The null discipline of setDetail: with every argument null, the texts are kept except
   * the attack, which becomes null, and the held message is dropped; the history reference
   * and the values cached from the old message are kept.
   */
  lemma NullDetailsChangeOnlyAttack(s: AlertState)
    ensures WithDetail(s, None, None, None, None, None, None, None, None) == s.(attack := None, message := None)
  {
  }

  /** Applying the same details a second time changes nothing more. */
  lemma DetailIdempotent(s: AlertState, description: Option<string>, uri: Option<string>, param: Option<string>,
                         attack: Option<string>, otherInfo: Option<string>, solution: Option<string>,
                         reference: Option<string>, msg: Option<Message>)
    ensures var t := WithDetail(s, description, uri, param, attack, otherInfo, solution, reference, msg);
            WithDetail(t, description, uri, param, attack, otherInfo, solution, reference, msg) == t
  {
  }

  /**
   * Of the methods that write the history reference, only setHistoryRef also moves
   * sourceHistoryId: both setDetail variants write the reference directly and leave
   * sourceHistoryId as it was.
   */
  lemma DetailKeepsSource(s: AlertState, description: Option<string>, uri: Option<string>, param: Option<string>,
                          attack: Option<string>, otherInfo: Option<string>, solution: Option<string>,
                          reference: Option<string>, msg: Option<Message>, href: Option<HistoryRef>)
    ensures WithDetail(s, description, uri, param, attack, otherInfo, solution, reference, msg).sourceHistoryId
            == s.sourceHistoryId
    ensures WithDetailRef(s, description, uri, param, attack, otherInfo, solution, reference, href).sourceHistoryId
            == s.sourceHistoryId
  {
  }

  /**
   * An alert restored from a row can hold a history reference while its sourceHistoryId
   * stays 0, because the constructors assign the reference without setHistoryRef; calling
   * setHistoryRef with that same reference would set sourceHistoryId to its id.
   */
  lemma RestoredHoldsReferenceWithoutSource(r: RecordAlert, store: HistoryStore, h: HistoryRef, ref: Option<HistoryRef>)
    requires store.open(r.historyId) == Fetched(h) && store.read(h).Failed?
    ensures Restored(r, store).historyRef == Some(h) && Restored(r, store).sourceHistoryId == 0
    ensures WithHistoryRef(Restored(r, store), Some(h)).sourceHistoryId == h.historyId
    ensures RestoredWithRef(r, ref, store).sourceHistoryId == 0
  {
  }

  /** setMessage(null) after setMessage(m) drops the message but keeps what was cached from it. */
  lemma MessageCacheOutlivesMessage(s: AlertState, m: Message)
    ensures var t := WithMessage(WithMessage(s, Some(m)), None);
            t.message == None && t.requestMethod == Some(m.requestMethod) && t.postData == Some(m.body) && t.msgUri == Some(m.uri)
  {
  }

  /**
   * A row whose history reference cannot be opened still yields an alert: rank, title and
   * alert id come from the row, and the details keep their initial values.
   */
  lemma RestoredWithoutHistory(r: RecordAlert, store: HistoryStore)
    requires store.open(r.historyId).Failed?
    ensures var s := Restored(r, store);
            s == FromRow(r) && s.historyRef == None && s.message == None
            && s.description == "" && s.uri == "" && s.param == "" && s.attack == Some("")
  {
  }

  /**
   * A row whose message can be read yields an alert holding that message, the values cached
   * from it and the message's own history reference, with the row's rank, title, id and
   * details (a NULL column keeps the default ""); sourceHistoryId stays 0.
   */
  lemma RestoredWithMessage(r: RecordAlert, store: HistoryStore, h: HistoryRef, m: Message)
    requires store.open(r.historyId) == Fetched(h) && store.read(h) == Fetched(m)
    ensures Restored(r, store)
            == FromRow(r).(description := Keep("", r.description), uri := Keep("", r.uri), param := Keep("", r.param),
                           attack := r.attack, otherInfo := Keep("", r.otherInfo), solution := Keep("", r.solution),
                           reference := Keep("", r.reference), message := Some(m), historyRef := m.historyRef,
                           requestMethod := Some(m.requestMethod), postData := Some(m.body), msgUri := Some(m.uri))
    ensures Restored(r, store).sourceHistoryId == 0
  {
  }

  /**
   * `new Alert(recordAlert, null)` sets the row's details and holds no message and no
   * reference.
   */
  lemma RestoredWithNullRef(r: RecordAlert, store: HistoryStore)
    ensures RestoredWithRef(r, None, store)
            == FromRow(r).(description := Keep("", r.description), uri := Keep("", r.uri), param := Keep("", r.param),
                           attack := r.attack, otherInfo := Keep("", r.otherInfo), solution := Keep("", r.solution),
                           reference := Keep("", r.reference))
    ensures RestoredWithRef(r, None, store).message == None && RestoredWithRef(r, None, store).historyRef == None
  {
  }

  /**
   * `new Alert(recordAlert, ref)` whose message cannot be read keeps the reference and leaves
   * every detail at its default.
   */
  lemma RestoredWithUnreadableRef(r: RecordAlert, store: HistoryStore, h: HistoryRef)
    requires store.read(h).Failed?
    ensures RestoredWithRef(r, Some(h), store) == FromRow(r).(historyRef := Some(h))
    ensures var s := RestoredWithRef(r, Some(h), store);
            s.description == "" && s.uri == "" && s.param == "" && s.attack == Some("") && s.message == None
  {
  }

  /**
   * `new Alert(recordAlert, ref)` whose message can be read ends up holding the message and
   * the message's own history reference, which replaces the one given.
   */
  lemma RestoredWithReadableRef(r: RecordAlert, store: HistoryStore, h: HistoryRef, m: Message)
    requires store.read(h) == Fetched(m)
    ensures RestoredWithRef(r, Some(h), store)
            == FromRow(r).(description := Keep("", r.description), uri := Keep("", r.uri), param := Keep("", r.param),
                           attack := r.attack, otherInfo := Keep("", r.otherInfo), solution := Keep("", r.solution),
                           reference := Keep("", r.reference), message := Some(m), historyRef := m.historyRef,
                           requestMethod := Some(m.requestMethod), postData := Some(m.body), msgUri := Some(m.uri))
  {
  }
}
