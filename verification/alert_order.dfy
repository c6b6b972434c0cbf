/**
 * Alert.compareTo and Alert.equals. The ordering ranks alerts by risk, reliability, title,
 * URI, parameter and other information; equality looks only at the plugin id, the URI, the
 * parameter and the other information. The two relations do not agree, and the lemmas at
 * the end of this module say exactly where.
 */
module AlertOrder {
  import opened Wrappers
  import opened JavaString
  import opened AlertFields

  /** Alert.compareTo: integers compared numerically, strings compared ignoring case. */
  function CompareTo(a: AlertState, b: AlertState): int
  {
    if a.risk < b.risk then -1
    else if a.risk > b.risk then 1
    else if a.reliability < b.reliability then -1
    else if a.reliability > b.reliability then 1
    else
      var byAlert := CompareToIgnoreCase(a.alert, b.alert);
      if byAlert != 0 then byAlert
      else
        var byUri := CompareToIgnoreCase(a.uri, b.uri);
        if byUri != 0 then byUri
        else
          var byParam := CompareToIgnoreCase(a.param, b.param);
          if byParam != 0 then byParam
          else CompareToIgnoreCase(a.otherInfo, b.otherInfo)
  }

  /** The six-field key of the ordering agrees, strings ignoring case. */
  predicate SameOrderKey(a: AlertState, b: AlertState)
  {
    a.risk == b.risk && a.reliability == b.reliability
    && EqualsIgnoreCase(a.alert, b.alert) && EqualsIgnoreCase(a.uri, b.uri)
    && EqualsIgnoreCase(a.param, b.param) && EqualsIgnoreCase(a.otherInfo, b.otherInfo)
  }

  /** The argument of Object.equals: an Alert, or an object of any other class. */
  datatype Obj = AlertObj(item: AlertState) | OtherObj

  /** Alert.equals: same plugin id, and URI, parameter and other information equal ignoring case. */
  predicate Equals(a: AlertState, o: Obj)
  {
    match o
    case AlertObj(b) =>
      a.pluginId == b.pluginId && EqualsIgnoreCase(a.uri, b.uri)
      && EqualsIgnoreCase(a.param, b.param) && EqualsIgnoreCase(a.otherInfo, b.otherInfo)
    case OtherObj => false
  }

  // ---------------------------------------------------------------------------------------
  // The ordering
  // ---------------------------------------------------------------------------------------

  /** compareTo is zero exactly when the six-field key agrees. */
  lemma CompareToZero(a: AlertState, b: AlertState)
    ensures CompareTo(a, b) == 0 <==> SameOrderKey(a, b)
  {
    CompareToIgnoreCaseZero(a.alert, b.alert);
    CompareToIgnoreCaseZero(a.uri, b.uri);
    CompareToIgnoreCaseZero(a.param, b.param);
    CompareToIgnoreCaseZero(a.otherInfo, b.otherInfo);
  }

  lemma CompareToReflexive(a: AlertState)
    ensures CompareTo(a, a) == 0
  {
    CompareToIgnoreCaseReflexive(a.alert);
    CompareToIgnoreCaseReflexive(a.uri);
    CompareToIgnoreCaseReflexive(a.param);
    CompareToIgnoreCaseReflexive(a.otherInfo);
  }

  /** Swapping the arguments negates the result, so the signs are opposite. */
  lemma CompareToAntisymmetric(a: AlertState, b: AlertState)
    ensures CompareTo(a, b) == -CompareTo(b, a)
  {
    CompareToIgnoreCaseAntisymmetric(a.alert, b.alert);
    CompareToIgnoreCaseAntisymmetric(a.uri, b.uri);
    CompareToIgnoreCaseAntisymmetric(a.param, b.param);
    CompareToIgnoreCaseAntisymmetric(a.otherInfo, b.otherInfo);
  }

  /** One string field's comparisons chained, stated for every outcome. */
  lemma FieldChain(x: string, y: string, z: string)
    ensures CompareToIgnoreCase(x, y) <= 0 && CompareToIgnoreCase(y, z) <= 0 ==> CompareToIgnoreCase(x, z) <= 0
    ensures (CompareToIgnoreCase(x, y) <= 0 && CompareToIgnoreCase(y, z) <= 0
             && (CompareToIgnoreCase(x, y) < 0 || CompareToIgnoreCase(y, z) < 0)) ==> CompareToIgnoreCase(x, z) < 0
    ensures CompareToIgnoreCase(x, y) == 0 && CompareToIgnoreCase(y, z) == 0 ==> CompareToIgnoreCase(x, z) == 0
  {
    if CompareToIgnoreCase(x, y) <= 0 && CompareToIgnoreCase(y, z) <= 0 {
      CompareToIgnoreCaseTransitive(x, y, z);
    }
    CompareToIgnoreCaseZero(x, y);
    CompareToIgnoreCaseZero(y, z);
    CompareToIgnoreCaseZero(x, z);
  }

  /**
   * compareTo is transitive, and strict as soon as one step is strict: together with
   * CompareToAntisymmetric and CompareToReflexive, a total preorder on alerts.
   */
  lemma CompareToTransitive(a: AlertState, b: AlertState, c: AlertState)
    requires CompareTo(a, b) <= 0 && CompareTo(b, c) <= 0
    ensures CompareTo(a, c) <= 0
    ensures CompareTo(a, b) < 0 || CompareTo(b, c) < 0 ==> CompareTo(a, c) < 0
  {
    FieldChain(a.alert, b.alert, c.alert);
    FieldChain(a.uri, b.uri, c.uri);
    FieldChain(a.param, b.param, c.param);
    FieldChain(a.otherInfo, b.otherInfo, c.otherInfo);
  }

  /**
   * Only the six-field key matters: an alert may be replaced by one with the same key
   * (strings equal ignoring case) whatever its plugin id and other fields.
   */
  lemma CompareToIgnoresOtherFields(a: AlertState, a': AlertState, c: AlertState)
    requires SameOrderKey(a, a')
    ensures CompareTo(a, c) == CompareTo(a', c)
    ensures CompareTo(c, a) == CompareTo(c, a')
  {
    CompareToIgnoreCaseSubstitutes(a.alert, a'.alert, c.alert);
    CompareToIgnoreCaseSubstitutes(a.uri, a'.uri, c.uri);
    CompareToIgnoreCaseSubstitutes(a.param, a'.param, c.param);
    CompareToIgnoreCaseSubstitutes(a.otherInfo, a'.otherInfo, c.otherInfo);
    CompareToAntisymmetric(a, c);
    CompareToAntisymmetric(a', c);
  }

  // ---------------------------------------------------------------------------------------
  // Equality
  // ---------------------------------------------------------------------------------------

  /** equals is an equivalence on alerts and is false for any other object. */
  lemma EqualsEquivalence(a: AlertState, b: AlertState, c: AlertState)
    ensures Equals(a, AlertObj(a))
    ensures Equals(a, AlertObj(b)) == Equals(b, AlertObj(a))
    ensures Equals(a, AlertObj(b)) && Equals(b, AlertObj(c)) ==> Equals(a, AlertObj(c))
    ensures !Equals(a, OtherObj)
  {
  }

  /** Changing risk, reliability, title, description, solution, attack or reference never changes equals. */
  lemma EqualsIgnoresOtherFields(a: AlertState, b: AlertState, o: Obj, risk: int, reliability: int, alert: string,
                                 description: string, solution: string, attack: Option<string>,
                                 reference: string)
    ensures var a' := a.(risk := risk, reliability := reliability, alert := alert, description := description,
                         solution := solution, attack := attack, reference := reference);
            Equals(a', o) == Equals(a, o) && Equals(b, AlertObj(a')) == Equals(b, AlertObj(a))
  {
  }

  // ---------------------------------------------------------------------------------------
  // How the ordering and equality relate
  // ---------------------------------------------------------------------------------------

  /** Alerts that compare as zero and share a plugin id are equal. */
  lemma CompareZeroSamePluginEquals(a: AlertState, b: AlertState)
    requires CompareTo(a, b) == 0 && a.pluginId == b.pluginId
    ensures Equals(a, AlertObj(b))
  {
    CompareToZero(a, b);
  }

  /** Equal alerts whose risk, reliability and title also agree compare as zero. */
  lemma EqualsSameRankComparesZero(a: AlertState, b: AlertState)
    requires Equals(a, AlertObj(b))
    requires a.risk == b.risk && a.reliability == b.reliability && EqualsIgnoreCase(a.alert, b.alert)
    ensures CompareTo(a, b) == 0
  {
    CompareToZero(a, b);
  }

  /**
   * The two relations are not consistent: equal alerts can compare as non-zero (they differ
   * in risk), and alerts comparing as zero can be unequal (they differ in plugin id).
   */
  lemma OrderAndEqualityDisagree()
    ensures exists a, b :: Equals(a, AlertObj(b)) && CompareTo(a, b) != 0
    ensures exists a, b :: CompareTo(a, b) == 0 && !Equals(a, AlertObj(b))
  {
    var a := Initial(10).(uri := "/a", param := "id");
    var high := a.(risk := RISK_HIGH, alert := "SQL Injection");
    assert Equals(a, AlertObj(high)) && CompareTo(a, high) == -1;
    var otherPlugin := a.(pluginId := 11);
    CompareToReflexive(a);
    assert CompareTo(a, otherPlugin) == CompareTo(a, a);
    assert CompareTo(a, otherPlugin) == 0 && !Equals(a, AlertObj(otherPlugin));
  }

  /** The copy made by newInstance equals its original and compares as zero with it, both ways. */
  lemma CopyMatchesOriginal(s: AlertState)
    ensures Equals(CopyOf(s), AlertObj(s)) && Equals(s, AlertObj(CopyOf(s)))
    ensures CompareTo(CopyOf(s), s) == 0 && CompareTo(s, CopyOf(s)) == 0
  {
    CopyOfFields(s);
    CompareToZero(CopyOf(s), s);
    CompareToZero(s, CopyOf(s));
  }

  /**
   * The order of the key: risk first, ascending; then reliability, ascending; then title,
   * URI, parameter and other information, each compared ignoring case, the first that
   * differs deciding.
   */
  lemma CompareToLexicographic(a: AlertState, b: AlertState)
    ensures (a.risk < b.risk) ==> CompareTo(a, b) == -1
    ensures (a.risk > b.risk) ==> CompareTo(a, b) == 1
    ensures (a.risk == b.risk && a.reliability < b.reliability) ==> CompareTo(a, b) == -1
    ensures (a.risk == b.risk && a.reliability > b.reliability) ==> CompareTo(a, b) == 1
    ensures (a.risk == b.risk && a.reliability == b.reliability && !EqualsIgnoreCase(a.alert, b.alert))
            ==> CompareTo(a, b) == CompareToIgnoreCase(a.alert, b.alert) != 0
    ensures (a.risk == b.risk && a.reliability == b.reliability && EqualsIgnoreCase(a.alert, b.alert)
             && !EqualsIgnoreCase(a.uri, b.uri))
            ==> CompareTo(a, b) == CompareToIgnoreCase(a.uri, b.uri) != 0
    ensures (a.risk == b.risk && a.reliability == b.reliability && EqualsIgnoreCase(a.alert, b.alert)
             && EqualsIgnoreCase(a.uri, b.uri) && !EqualsIgnoreCase(a.param, b.param))
            ==> CompareTo(a, b) == CompareToIgnoreCase(a.param, b.param) != 0
    ensures (a.risk == b.risk && a.reliability == b.reliability && EqualsIgnoreCase(a.alert, b.alert)
             && EqualsIgnoreCase(a.uri, b.uri) && EqualsIgnoreCase(a.param, b.param))
            ==> CompareTo(a, b) == CompareToIgnoreCase(a.otherInfo, b.otherInfo)
  {
    CompareToIgnoreCaseZero(a.alert, b.alert);
    CompareToIgnoreCaseZero(a.uri, b.uri);
    CompareToIgnoreCaseZero(a.param, b.param);
  }

  /** High risk ranks above low risk whatever the titles. */
  lemma HighRanksAboveLow(high: AlertState, low: AlertState)
    requires high.risk == RISK_HIGH && low.risk == RISK_LOW
    ensures CompareTo(high, low) > 0 && CompareTo(low, high) < 0
  {
  }

  /** Same plugin, URI, parameter and other information: equal, whatever risk and title. */
  lemma SameLocationEquals(risk1: int, risk2: int, title1: string, title2: string)
    ensures Equals(Created(10, risk1, WARNING, Some(title1)).(uri := "/a", param := "id"),
                   AlertObj(Created(10, risk2, WARNING, Some(title2)).(uri := "/a", param := "id")))
  {
  }
}
