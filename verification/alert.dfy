/**
 * The scanner Alert object itself: its fields, updated in place by its constructors and
 * setters. Each method is proved to leave the object in exactly the state that the
 * corresponding function of AlertFields computes from the state before the call, so what
 * is proved there about those functions holds of the object.
 */
module Scanner {
  import opened Wrappers
  import opened History
  import opened AlertFields
  import JavaString
  import AlertOrder
  import AlertEvidence

  class Alert {
    var alertId: int
    var pluginId: int
    var alert: string
    var risk: int
    var reliability: int
    var description: string
    var uri: string
    var param: string
    var attack: Option<string>
    var otherInfo: string
    var solution: string
    var reference: string
    var message: Option<Message>
    var sourceHistoryId: int
    var historyRef: Option<HistoryRef>
    var requestMethod: Option<string>
    var postData: Option<string>
    var msgUri: Option<string>

    /** Every field of the object, as one value. */
    function State(): AlertState
      reads this
    {
      AlertState(alertId, pluginId, alert, risk, reliability, description, uri, param, attack, otherInfo,
                 solution, reference, message, sourceHistoryId, historyRef, requestMethod, postData, msgUri)
    }

    /** `new Alert(pluginId)`. */
    constructor (pluginId: int)
      ensures State() == Initial(pluginId)
    {
      alertId, this.pluginId, alert, risk, reliability := -1, pluginId, "", RISK_INFO, WARNING;
      description, uri, param, attack, otherInfo, solution, reference := "", "", "", Some(""), "", "", "";
      message, sourceHistoryId, historyRef := None, 0, None;
      requestMethod, postData, msgUri := None, None, None;
    }

    /** `new Alert(pluginId, risk, reliability, alert)`: the rank, then the title unless it is null. */
    constructor WithRank(pluginId: int, risk: int, reliability: int, alert: Option<string>)
      ensures State() == Created(pluginId, risk, reliability, alert)
    {
      alertId, this.pluginId, this.alert, this.risk, this.reliability := -1, pluginId, "", RISK_INFO, WARNING;
      description, uri, param, attack, otherInfo, solution, reference := "", "", "", Some(""), "", "", "";
      message, sourceHistoryId, historyRef := None, 0, None;
      requestMethod, postData, msgUri := None, None, None;
      new;
      SetRiskReliability(risk, reliability);
      SetAlert(alert);
    }

    /**
     * `new Alert(recordAlert)`: the row's rank, title and alert id; then the history row is
     * opened and its message read. A failure of either is swallowed and ends the constructor
     * with the fields set so far.
     */
    constructor FromRecord(r: RecordAlert, store: HistoryStore)
      ensures State() == Restored(r, store)
    {
      alertId, pluginId, alert, risk, reliability := -1, r.pluginId, "", RISK_INFO, WARNING;
      description, uri, param, attack, otherInfo, solution, reference := "", "", "", Some(""), "", "", "";
      message, sourceHistoryId, historyRef := None, 0, None;
      requestMethod, postData, msgUri := None, None, None;
      new;
      SetRiskReliability(r.risk, r.reliability);
      SetAlert(r.alert);
      alertId := r.alertId;
      match store.open(r.historyId) {
        case Failed(_) =>
        case Fetched(h) =>
          historyRef := Some(h);
          match store.read(h) {
            case Failed(_) =>
            case Fetched(m) =>
              SetDetail(r.description, r.uri, r.param, r.attack, r.otherInfo, r.solution, r.reference, Some(m));
          }
      }
    }

    /**
     * `new Alert(recordAlert, ref)`: the row's rank, title and alert id, and the given
     * reference; the details are set when the reference is null or its message can be read.
     */
    constructor FromRecordWithRef(r: RecordAlert, ref: Option<HistoryRef>, store: HistoryStore)
      ensures State() == RestoredWithRef(r, ref, store)
    {
      alertId, pluginId, alert, risk, reliability := -1, r.pluginId, "", RISK_INFO, WARNING;
      description, uri, param, attack, otherInfo, solution, reference := "", "", "", Some(""), "", "", "";
      message, sourceHistoryId, historyRef := None, 0, None;
      requestMethod, postData, msgUri := None, None, None;
      new;
      SetRiskReliability(r.risk, r.reliability);
      SetAlert(r.alert);
      alertId := r.alertId;
      historyRef := ref;
      match ref {
        case None =>
          SetDetail(r.description, r.uri, r.param, r.attack, r.otherInfo, r.solution, r.reference, None);
        case Some(h) =>
          match store.read(h) {
            case Failed(_) =>
            case Fetched(m) =>
              SetDetail(r.description, r.uri, r.param, r.attack, r.otherInfo, r.solution, r.reference, Some(m));
          }
      }
    }

    method SetRiskReliability(risk: int, reliability: int)
      modifies this
      ensures State() == old(State()).(risk := risk, reliability := reliability)
    {
      this.risk := risk;
      this.reliability := reliability;
    }

    /** A null title is ignored. */
    method SetAlert(alert: Option<string>)
      modifies this
      ensures State() == old(State()).(alert := Keep(old(this.alert), alert))
    {
      if alert.Some? {
        this.alert := alert.value;
      }
    }

    /** A null description is ignored. */
    method SetDescription(description: Option<string>)
      modifies this
      ensures State() == old(State()).(description := Keep(old(this.description), description))
    {
      if description.Some? {
        this.description := description.value;
      }
    }

    /** A null URI is ignored. */
    method SetUri(uri: Option<string>)
      modifies this
      ensures State() == old(State()).(uri := Keep(old(this.uri), uri))
    {
      if uri.Some? {
        this.uri := uri.value;
      }
    }

    /** A null parameter is ignored. */
    method SetParam(param: Option<string>)
      modifies this
      ensures State() == old(State()).(param := Keep(old(this.param), param))
    {
      if param.Some? {
        this.param := param.value;
      }
    }

    /** The attack is stored as given, null included. */
    method SetAttack(attack: Option<string>)
      modifies this
      ensures State() == old(State()).(attack := attack)
    {
      this.attack := attack;
    }

    /** A null other-information text is ignored. */
    method SetOtherInfo(otherInfo: Option<string>)
      modifies this
      ensures State() == old(State()).(otherInfo := Keep(old(this.otherInfo), otherInfo))
    {
      if otherInfo.Some? {
        this.otherInfo := otherInfo.value;
      }
    }

    /** A null solution is ignored. */
    method SetSolution(solution: Option<string>)
      modifies this
      ensures State() == old(State()).(solution := Keep(old(this.solution), solution))
    {
      if solution.Some? {
        this.solution := solution.value;
      }
    }

    /** A null reference text is ignored. */
    method SetReference(reference: Option<string>)
      modifies this
      ensures State() == old(State()).(reference := Keep(old(this.reference), reference))
    {
      if reference.Some? {
        this.reference := reference.value;
      }
    }

    /** A message is held and its method, body and URI cached; null drops only the held message. */
    method SetMessage(msg: Option<Message>)
      modifies this
      ensures State() == WithMessage(old(State()), msg)
    {
      match msg {
        case Some(m) =>
          message := msg;
          requestMethod := Some(m.requestMethod);
          postData := Some(m.body);
          msgUri := Some(m.uri);
        case None =>
          message := None;
      }
    }

    /** The public setDetail: the seven texts, the message, then the message's history reference. */
    method SetDetail(description: Option<string>, uri: Option<string>, param: Option<string>,
                     attack: Option<string>, otherInfo: Option<string>, solution: Option<string>,
                     reference: Option<string>, msg: Option<Message>)
      modifies this
      ensures State() == WithDetail(old(State()), description, uri, param, attack, otherInfo, solution, reference, msg)
    {
      SetDescription(description);
      SetUri(uri);
      SetParam(param);
      SetAttack(attack);
      SetOtherInfo(otherInfo);
      SetSolution(solution);
      SetReference(reference);
      SetMessage(msg);
      if msg.Some? {
        historyRef := msg.value.historyRef;
      }
    }

    /** The private setDetail: the seven texts, then the history reference as given. */
    method SetDetailWithHistoryRef(description: Option<string>, uri: Option<string>, param: Option<string>,
                                   attack: Option<string>, otherInfo: Option<string>, solution: Option<string>,
                                   reference: Option<string>, href: Option<HistoryRef>)
      modifies this
      ensures State() == WithDetailRef(old(State()), description, uri, param, attack, otherInfo, solution, reference, href)
    {
      SetDescription(description);
      SetUri(uri);
      SetParam(param);
      SetAttack(attack);
      SetOtherInfo(otherInfo);
      SetSolution(solution);
      SetReference(reference);
      historyRef := href;
    }

    method SetAlertId(alertId: int)
      modifies this
      ensures State() == old(State()).(alertId := alertId)
    {
      this.alertId := alertId;
    }

    method SetSourceHistoryId(sourceHistoryId: int)
      modifies this
      ensures State() == old(State()).(sourceHistoryId := sourceHistoryId)
    {
      this.sourceHistoryId := sourceHistoryId;
    }

    /** A non-null reference also becomes the source of the alert (sourceHistoryId). */
    method SetHistoryRef(href: Option<HistoryRef>)
      modifies this
      ensures State() == WithHistoryRef(old(State()), href)
    {
      historyRef := href;
      if href.Some? {
        sourceHistoryId := href.value.historyId;
      }
    }

    /**
     * newInstance: a fresh alert with this one's plugin id, rank, title, details and history
     * reference; this alert is not changed.
     */
    method NewInstance() returns (item: Alert)
      ensures fresh(item)
      ensures item.State() == CopyOf(State())
    {
      item := new Alert(pluginId);
      item.SetRiskReliability(risk, reliability);
      item.SetAlert(Some(alert));
      item.SetDetailWithHistoryRef(Some(description), Some(uri), Some(param), attack, Some(otherInfo),
                                   Some(solution), Some(reference), historyRef);
    }

    /** compareTo against another alert, with the early returns of the original. */
    method CompareTo(other: Alert) returns (r: int)
      ensures r == AlertOrder.CompareTo(State(), other.State())
    {
      if risk < other.risk {
        return -1;
      } else if risk > other.risk {
        return 1;
      }
      if reliability < other.reliability {
        return -1;
      } else if reliability > other.reliability {
        return 1;
      }
      r := JavaString.CompareToIgnoreCase(alert, other.alert);
      if r != 0 {
        return;
      }
      r := JavaString.CompareToIgnoreCase(uri, other.uri);
      if r != 0 {
        return;
      }
      r := JavaString.CompareToIgnoreCase(param, other.param);
      if r != 0 {
        return;
      }
      r := JavaString.CompareToIgnoreCase(otherInfo, other.otherInfo);
    }

    /** getMessage: the held message, or the one read again through the history reference. */
    method GetMessage(store: HistoryStore) returns (r: Result<Option<Message>, Failure>)
      ensures r == AlertEvidence.GetMessage(State(), store)
    {
      if message.Some? {
        return Success(message);
      }
      if historyRef.Some? {
        match store.read(historyRef.value) {
          case Fetched(m) => return Success(Some(m));
          case Failed(Unchecked) => return Failure(Unchecked);
          case Failed(_) =>
        }
      }
      return Success(None);
    }
  }
}
