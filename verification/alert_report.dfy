/**
 * How an Alert is written into a report: the `alertitem` XML fragment (toPluginXML), the
 * URL/parameter fragment (getUrlParamXML), the two text transforms they use (paragraph and
 * breakNoSpaceString), and the flag icon chosen for the alert (getIconUrl).
 *
 * The entity encoder (ReportGenerator.entityEncode) is not part of this model; it is a
 * parameter `encode` about which nothing is assumed.
 */
module AlertReport {
  import opened Wrappers
  import opened JavaString
  import opened AlertFields

  // ---------------------------------------------------------------------------------------
  // paragraph
  // ---------------------------------------------------------------------------------------

  const PARAGRAPH_BREAK: string := "</p><p>"

  /** The first half of paragraph: each CR LF, then each remaining LF, closes one paragraph and opens the next. */
  function LineBreaksToParagraphs(text: string): string
  {
    ReplaceAll(ReplaceAll(text, "\r\n", PARAGRAPH_BREAK), "\n", PARAGRAPH_BREAK)
  }

  /** The second half of paragraph: the four escaped list tags become literal tags again. */
  function UnescapeListTags(s: string): string
  {
    ReplaceAll(ReplaceAll(ReplaceAll(ReplaceAll(s, "&lt;ul&gt;", "<ul>"), "&lt;/ul&gt;", "</ul>"),
                          "&lt;li&gt;", "<li>"), "&lt;/li&gt;", "</li>")
  }

  /** Alert.paragraph. */
  function Paragraph(text: string): string
  {
    UnescapeListTags("<p>" + LineBreaksToParagraphs(text) + "</p>")
  }

  /** An escaped tag begins with '&' and ends with ';', so it can neither start in "<p>" nor end in "</p>". */
  lemma ReplaceInsideParagraph(x: string, pattern: string, replacement: string)
    requires pattern != [] && pattern[0] == '&' && pattern[|pattern| - 1] == ';'
    ensures ReplaceAll("<p>" + x + "</p>", pattern, replacement) == "<p>" + ReplaceAll(x, pattern, replacement) + "</p>"
  {
    ReplaceAllKeepsSuffix("<p>" + x, "</p>", pattern, replacement);
    ReplaceAllKeepsPrefix("<p>", x, pattern, replacement);
  }

  /** The un-escaping never reaches the "<p>" and "</p>" that wrap the text. */
  lemma ParagraphShape(text: string)
    ensures Paragraph(text) == "<p>" + UnescapeListTags(LineBreaksToParagraphs(text)) + "</p>"
  {
    var x0 := LineBreaksToParagraphs(text);
    ReplaceInsideParagraph(x0, "&lt;ul&gt;", "<ul>");
    var x1 := ReplaceAll(x0, "&lt;ul&gt;", "<ul>");
    ReplaceInsideParagraph(x1, "&lt;/ul&gt;", "</ul>");
    var x2 := ReplaceAll(x1, "&lt;/ul&gt;", "</ul>");
    ReplaceInsideParagraph(x2, "&lt;li&gt;", "<li>");
    var x3 := ReplaceAll(x2, "&lt;li&gt;", "<li>");
    ReplaceInsideParagraph(x3, "&lt;/li&gt;", "</li>");
  }

  /** paragraph wraps its result in "<p>" ... "</p>" and leaves no line feed in it. */
  lemma ParagraphForm(text: string)
    ensures var r := Paragraph(text);
            |r| >= 7 && r[..3] == "<p>" && r[|r| - 4..] == "</p>" && '\n' !in r
  {
    ParagraphShape(text);
    var x0 := ReplaceAll(text, "\r\n", PARAGRAPH_BREAK);
    ReplaceAllRemovesChar(x0, '\n', PARAGRAPH_BREAK);
    var x1 := LineBreaksToParagraphs(text);
    ReplaceAllKeepsCharOut(x1, "&lt;ul&gt;", "<ul>", '\n');
    var x2 := ReplaceAll(x1, "&lt;ul&gt;", "<ul>");
    ReplaceAllKeepsCharOut(x2, "&lt;/ul&gt;", "</ul>", '\n');
    var x3 := ReplaceAll(x2, "&lt;/ul&gt;", "</ul>");
    ReplaceAllKeepsCharOut(x3, "&lt;li&gt;", "<li>", '\n');
    var x4 := ReplaceAll(x3, "&lt;li&gt;", "<li>");
    ReplaceAllKeepsCharOut(x4, "&lt;/li&gt;", "</li>", '\n');
    var inner := UnescapeListTags(x1);
    var r := "<p>" + inner + "</p>";
    assert r[..3] == "<p>" && r[|r| - 4..] == "</p>";
  }

  /**
   * No escaped list tag survives the un-escaping: each is replaced by a literal tag, and no
   * later replacement rebuilds an earlier one (a literal tag holds no '&' and starts with '<',
   * which no escaped tag holds).
   */
  lemma UnescapeRemovesEscapedTags(x: string)
    ensures var r := UnescapeListTags(x);
            && !Contains(r, "&lt;ul&gt;") && !Contains(r, "&lt;/ul&gt;")
            && !Contains(r, "&lt;li&gt;") && !Contains(r, "&lt;/li&gt;")
  {
    var x1 := ReplaceAll(x, "&lt;ul&gt;", "<ul>");
    ReplaceAllRemovesPattern(x, "&lt;ul&gt;", "<ul>");
    var x2 := ReplaceAll(x1, "&lt;/ul&gt;", "</ul>");
    ReplaceAllRemovesPattern(x1, "&lt;/ul&gt;", "</ul>");
    ReplaceAllNoNewOccurrence(x1, "&lt;/ul&gt;", "</ul>", "&lt;ul&gt;");
    var x3 := ReplaceAll(x2, "&lt;li&gt;", "<li>");
    ReplaceAllRemovesPattern(x2, "&lt;li&gt;", "<li>");
    ReplaceAllNoNewOccurrence(x2, "&lt;li&gt;", "<li>", "&lt;ul&gt;");
    ReplaceAllNoNewOccurrence(x2, "&lt;li&gt;", "<li>", "&lt;/ul&gt;");
    ReplaceAllRemovesPattern(x3, "&lt;/li&gt;", "</li>");
    ReplaceAllNoNewOccurrence(x3, "&lt;/li&gt;", "</li>", "&lt;ul&gt;");
    ReplaceAllNoNewOccurrence(x3, "&lt;/li&gt;", "</li>", "&lt;/ul&gt;");
    ReplaceAllNoNewOccurrence(x3, "&lt;/li&gt;", "</li>", "&lt;li&gt;");
  }

  /** Text holding none of the four escaped list tags (an "&amp;", say) passes the un-escaping unchanged. */
  lemma UnescapeKeepsOtherText(x: string)
    requires !Contains(x, "&lt;ul&gt;") && !Contains(x, "&lt;/ul&gt;")
    requires !Contains(x, "&lt;li&gt;") && !Contains(x, "&lt;/li&gt;")
    ensures UnescapeListTags(x) == x
  {
    ReplaceAllAbsent(x, "&lt;ul&gt;", "<ul>");
    ReplaceAllAbsent(x, "&lt;/ul&gt;", "</ul>");
    ReplaceAllAbsent(x, "&lt;li&gt;", "<li>");
    ReplaceAllAbsent(x, "&lt;/li&gt;", "</li>");
  }

  /** A text without line feeds is one paragraph: only the list tags are un-escaped inside it. */
  lemma ParagraphOfOneLine(text: string)
    requires '\n' !in text
    ensures Paragraph(text) == "<p>" + UnescapeListTags(text) + "</p>"
  {
    CharMissingMeansAbsent(text, "\r\n", '\n');
    ReplaceAllAbsent(text, "\r\n", PARAGRAPH_BREAK);
    CharMissingMeansAbsent(text, "\n", '\n');
    ReplaceAllAbsent(text, "\n", PARAGRAPH_BREAK);
    ParagraphShape(text);
  }

  /** Text without line feeds and without escaped list tags is only wrapped. */
  lemma ParagraphOfPlainText(text: string)
    requires '\n' !in text
    requires !Contains(text, "&lt;ul&gt;") && !Contains(text, "&lt;/ul&gt;")
    requires !Contains(text, "&lt;li&gt;") && !Contains(text, "&lt;/li&gt;")
    ensures Paragraph(text) == "<p>" + text + "</p>"
  {
    ParagraphOfOneLine(text);
    UnescapeKeepsOtherText(text);
  }

  /** A text without a line feed holds no line break, so the first half of paragraph leaves it alone. */
  lemma LineBreaksOfOneLine(text: string)
    requires '\n' !in text
    ensures LineBreaksToParagraphs(text) == text
  {
    CharMissingMeansAbsent(text, "\r\n", '\n');
    ReplaceAllAbsent(text, "\r\n", PARAGRAPH_BREAK);
    CharMissingMeansAbsent(text, "\n", '\n');
    ReplaceAllAbsent(text, "\n", PARAGRAPH_BREAK);
  }

  /** Text that starts with the pattern: the pattern is replaced and the rest follows. */
  lemma ReplaceAllAtStart(pattern: string, s: string, replacement: string)
    requires pattern != []
    ensures ReplaceAll(pattern + s, pattern, replacement) == replacement + ReplaceAll(s, pattern, replacement)
  {
    assert (pattern + s)[|pattern|..] == s;
  }

  /**
   * A line ended by CR LF: the line is kept, the CR LF becomes one paragraph break, and
   * the text after it is treated the same way. The line may hold a lone CR.
   */
  lemma LineBreaksAtCrLf(line: string, rest: string)
    requires '\n' !in line
    ensures LineBreaksToParagraphs(line + "\r\n" + rest) == line + "</p><p>" + LineBreaksToParagraphs(rest)
  {
    var t := "\r\n" + rest;
    var rest1 := ReplaceAll(rest, "\r\n", PARAGRAPH_BREAK);
    assert line + "\r\n" + rest == line + t;
    forall i | 0 <= i < |line| ensures !("\r\n" <= (line + t)[i..]) {
      var u := line + t;
      assert u[i..][1] == u[i + 1];
      if i + 1 < |line| {
        assert u[i + 1] == line[i + 1];
      } else {
        assert u[i + 1] == t[0];
      }
    }
    ReplaceAllKeepsUnmatchedPrefix(line, t, "\r\n", PARAGRAPH_BREAK);
    ReplaceAllAtStart("\r\n", rest, PARAGRAPH_BREAK);
    assert line + (PARAGRAPH_BREAK + rest1) == (line + PARAGRAPH_BREAK) + rest1;
    ReplaceAllKeepsPrefix(line + PARAGRAPH_BREAK, rest1, "\n", PARAGRAPH_BREAK);
  }

  /**
   * A line ended by a lone LF: the line is kept, the LF becomes one paragraph break, and
   * the text after it is treated the same way. The line may hold a CR anywhere but at its end,
   * where it would make the line break a CR LF.
   */
  lemma LineBreaksAtLf(line: string, rest: string)
    requires '\n' !in line && (line == [] || line[|line| - 1] != '\r')
    ensures LineBreaksToParagraphs(line + "\n" + rest) == line + "</p><p>" + LineBreaksToParagraphs(rest)
  {
    var pre := line + "\n";
    var rest1 := ReplaceAll(rest, "\r\n", PARAGRAPH_BREAK);
    forall i | 0 <= i < |pre| ensures !("\r\n" <= (pre + rest)[i..]) {
      var u := pre + rest;
      if i == |line| {
        assert u[i..][0] == u[i] == '\n';
      } else if i + 1 < |line| {
        assert u[i..][1] == u[i + 1] == line[i + 1];
      } else {
        assert u[i..][0] == u[i] == line[|line| - 1];
      }
    }
    ReplaceAllKeepsUnmatchedPrefix(pre, rest, "\r\n", PARAGRAPH_BREAK);
    assert line + ("\n" + rest1) == (line + "\n") + rest1;
    ReplaceAllKeepsPrefix(line, "\n" + rest1, "\n", PARAGRAPH_BREAK);
    ReplaceAllAtStart("\n", rest1, PARAGRAPH_BREAK);
  }

  /** The un-escaping turns an encoded list opening into the literal tag. */
  lemma UnescapeListOpen()
    ensures UnescapeListTags("&lt;ul&gt;") == "<ul>"
  {
    ReplaceAllWhole("&lt;ul&gt;", "<ul>");
    UnescapeLaterPasses("<ul>");
  }

  /** The un-escaping turns an encoded list closing into the literal tag. */
  lemma UnescapeListClose()
    ensures UnescapeListTags("&lt;/ul&gt;") == "</ul>"
  {
    OneLongerMismatch("&lt;/ul&gt;", "&lt;ul&gt;");
    ReplaceAllWhole("&lt;/ul&gt;", "</ul>");
    UnescapeThroughListClosing("&lt;/ul&gt;", "</ul>");
  }

  /** The un-escaping turns an encoded item closing into the literal tag. */
  lemma UnescapeListItemClose()
    ensures UnescapeListTags("&lt;/li&gt;") == "</li>"
  {
    OneLongerMismatch("&lt;/li&gt;", "&lt;li&gt;");
    UnescapeOnlyItemClosing("&lt;/li&gt;");
    ReplaceAllWhole("&lt;/li&gt;", "</li>");
  }

  /**
   * Without an escaped list opening, a text whose list closings un-escape to a text `x`
   * without a `&` un-escapes to `x`: the item passes find nothing left.
   */
  lemma UnescapeThroughListClosing(t: string, x: string)
    requires !Contains(t, "&lt;ul&gt;")
    requires ReplaceAll(t, "&lt;/ul&gt;", "</ul>") == x && '&' !in x
    ensures UnescapeListTags(t) == x
  {
    ReplaceAllAbsent(t, "&lt;ul&gt;", "<ul>");
    UnescapeLastPasses(x);
  }

  /** Without a `u` and an escaped item opening, only the item closings are un-escaped. */
  lemma UnescapeOnlyItemClosing(t: string)
    requires 'u' !in t && !Contains(t, "&lt;li&gt;")
    ensures UnescapeListTags(t) == ReplaceAll(t, "&lt;/li&gt;", "</li>")
  {
    UnescapeWithoutListTags(t);
    ReplaceAllAbsent(t, "&lt;li&gt;", "<li>");
  }

  /** The last two passes of the un-escaping leave a text without a `&` alone. */
  lemma UnescapeLastPasses(t: string)
    requires '&' !in t
    ensures ReplaceAll(ReplaceAll(t, "&lt;li&gt;", "<li>"), "&lt;/li&gt;", "</li>") == t
  {
    CharMissingMeansAbsent(t, "&lt;li&gt;", '&');
    ReplaceAllAbsent(t, "&lt;li&gt;", "<li>");
    CharMissingMeansAbsent(t, "&lt;/li&gt;", '&');
    ReplaceAllAbsent(t, "&lt;/li&gt;", "</li>");
  }

  /** The last three passes of the un-escaping leave a text without a `&` alone. */
  lemma UnescapeLaterPasses(t: string)
    requires '&' !in t
    ensures ReplaceAll(ReplaceAll(ReplaceAll(t, "&lt;/ul&gt;", "</ul>"), "&lt;li&gt;", "<li>"), "&lt;/li&gt;", "</li>") == t
  {
    CharMissingMeansAbsent(t, "&lt;/ul&gt;", '&');
    ReplaceAllAbsent(t, "&lt;/ul&gt;", "</ul>");
    UnescapeLastPasses(t);
  }

  /**
   * A text one character longer than a pattern can hold it only at its first two positions;
   * an escaped closing tag differs from the escaped opening tag of the same name at both.
   */
  lemma OneLongerMismatch(s: string, pattern: string)
    requires |pattern| > 4 && |s| == |pattern| + 1
    requires s[4] != pattern[4] && s[1] != pattern[0]
    ensures !Contains(s, pattern)
  {
    forall i | 0 <= i <= |s| ensures !(pattern <= s[i..]) {
      if i == 1 {
        assert s[i..][0] == s[1];
      }
    }
  }

  /** A text without a `u` has no list tags, so only the item tags are un-escaped. */
  lemma UnescapeWithoutListTags(t: string)
    requires 'u' !in t
    ensures UnescapeListTags(t) == ReplaceAll(ReplaceAll(t, "&lt;li&gt;", "<li>"), "&lt;/li&gt;", "</li>")
  {
    CharMissingMeansAbsent(t, "&lt;ul&gt;", 'u');
    ReplaceAllAbsent(t, "&lt;ul&gt;", "<ul>");
    CharMissingMeansAbsent(t, "&lt;/ul&gt;", 'u');
    ReplaceAllAbsent(t, "&lt;/ul&gt;", "</ul>");
  }

  /** The un-escaping turns an encoded list item into the literal tag. */
  lemma UnescapeListItem()
    ensures UnescapeListTags("&lt;li&gt;") == "<li>"
  {
    UnescapeWithoutListTags("&lt;li&gt;");
    ReplaceAllWhole("&lt;li&gt;", "<li>");
    CharMissingMeansAbsent("<li>", "&lt;/li&gt;", '&');
    ReplaceAllAbsent("<li>", "&lt;/li&gt;", "</li>");
  }

  /** Replacing a whole text that is exactly the pattern gives the replacement. */
  lemma ReplaceAllWhole(pattern: string, replacement: string)
    requires pattern != []
    ensures ReplaceAll(pattern, pattern, replacement) == replacement
  {
    assert pattern[|pattern|..] == [];
  }

  /** An encoded list item comes out of paragraph as a literal `<li>` inside the paragraph. */
  lemma ParagraphOfListItem()
    ensures Paragraph("&lt;li&gt;") == "<p><li></p>"
  {
    calc {
      Paragraph("&lt;li&gt;");
    == { ParagraphOfOneLine("&lt;li&gt;"); }
      "<p>" + UnescapeListTags("&lt;li&gt;") + "</p>";
    == { UnescapeListItem(); }
      "<p>" + "<li>" + "</p>";
    }
  }

  // ---------------------------------------------------------------------------------------
  // breakNoSpaceString and replaceEntity
  // ---------------------------------------------------------------------------------------

  const ESCAPED_AMP: string := "&amp;"
  const WORD_BREAK: string := "<wbr/>"

  /**
   * Alert.breakNoSpaceString: null stays null; otherwise "<wbr/>" is inserted right after
   * every "&amp;". Deleting each inserted marker gives the text back, and the text grows by
   * the marker's six characters per "&amp;".
   */
  function BreakNoSpaceString(text: Option<string>): (r: Option<string>)
    ensures r.None? <==> text.None?
    ensures text.Some? ==> ReplaceAll(r.value, ESCAPED_AMP + WORD_BREAK, ESCAPED_AMP) == text.value
    ensures text.Some? ==> |r.value| == |text.value| + 6 * Occurrences(text.value, ESCAPED_AMP)
  {
    match text
    case None => None
    case Some(t) =>
      InsertAfterRoundTrip(t, ESCAPED_AMP, WORD_BREAK);
      ReplaceAllLength(t, ESCAPED_AMP, ESCAPED_AMP + WORD_BREAK);
      Some(ReplaceAll(t, ESCAPED_AMP, ESCAPED_AMP + WORD_BREAK))
  }

  /** Alert.replaceEntity: null stays null, any other text goes through the entity encoder. */
  function ReplaceEntity(text: Option<string>, encode: string -> string): (r: Option<string>)
    ensures r.None? <==> text.None?
    ensures text.Some? ==> r.value == encode(text.value)
  {
    match text
    case None => None
    case Some(t) => Some(encode(t))
  }

  // ---------------------------------------------------------------------------------------
  // The two XML fragments, and the line structure they follow
  // ---------------------------------------------------------------------------------------

  /** One `  <tag>text</tag>` line, as a chain of StringBuilder appends writes it. */
  function ElementLine(tag: string, text: string): string
  {
    "  <" + tag + ">" + text + "</" + tag + ">\r\n"
  }

  /** One line of a report fragment. */
  datatype XmlLine = Open(tag: string) | Close(tag: string) | Element(tag: string, text: string) | Verbatim(text: string)

  /** The characters of one line. */
  function LineText(l: XmlLine): string
  {
    match l
    case Open(t) => "<" + t + ">\r\n"
    case Close(t) => "</" + t + ">\r\n"
    case Element(t, x) => ElementLine(t, x)
    case Verbatim(x) => x
  }

  /** The characters of a fragment: its lines appended one after the other. */
  function Render(lines: seq<XmlLine>): string
  {
    if lines == [] then [] else Render(lines[..|lines| - 1]) + LineText(lines[|lines| - 1])
  }

  /** The tags of the Element lines, in order. */
  function ElementTags(lines: seq<XmlLine>): seq<string>
  {
    if lines == [] then []
    else if lines[0].Element? then [lines[0].tag] + ElementTags(lines[1..])
    else ElementTags(lines[1..])
  }

  /** The risk and reliability can index the two label arrays. */
  predicate RanksInRange(s: AlertState)
  {
    0 <= s.risk < |MSG_RISK| && 0 <= s.reliability < |MSG_RELIABILITY|
  }

  /** The risk and reliability labels, as written into `riskdesc`. */
  function RiskDescription(s: AlertState): string
    requires RanksInRange(s)
  {
    MSG_RISK[s.risk] + " (" + MSG_RELIABILITY[s.reliability] + ")"
  }

  /**
   * Alert.toPluginXML. The title is appended as it is (it is not entity-encoded); the other
   * free texts are encoded and then passed through paragraph; `urls` is copied verbatim
   * (a null `urls` as "null");
   * `otherinfo` is written only when the other information is not empty. A risk or
   * reliability outside the label arrays makes the lookup throw, so there is no fragment (None).
   */
  function ToPluginXml(s: AlertState, urls: Option<string>, encode: string -> string): (r: Option<string>)
    ensures r.Some? <==> RanksInRange(s)
  {
    if !RanksInRange(s) then None
    else Some(
      "<alertitem>\r\n"
      + ElementLine("pluginid", DecimalString(s.pluginId))
      + ElementLine("alert", s.alert)
      + ElementLine("riskcode", DecimalString(s.risk))
      + ElementLine("reliability", DecimalString(s.reliability))
      + ElementLine("riskdesc", encode(RiskDescription(s)))
      + ElementLine("desc", Paragraph(encode(s.description)))
      + AppendText(urls)
      + ElementLine("solution", Paragraph(encode(s.solution)))
      + (if |s.otherInfo| > 0 then ElementLine("otherinfo", Paragraph(encode(s.otherInfo))) else "")
      + ElementLine("reference", Paragraph(encode(s.reference)))
      + "</alertitem>\r\n")
  }

  /** The lines of the `alertitem` fragment up to and including the solution. */
  function PluginHeadLines(s: AlertState, urls: Option<string>, encode: string -> string): seq<XmlLine>
    requires RanksInRange(s)
  {
    [Open("alertitem"),
     Element("pluginid", DecimalString(s.pluginId)),
     Element("alert", s.alert),
     Element("riskcode", DecimalString(s.risk)),
     Element("reliability", DecimalString(s.reliability)),
     Element("riskdesc", encode(RiskDescription(s))),
     Element("desc", Paragraph(encode(s.description))),
     Verbatim(AppendText(urls)),
     Element("solution", Paragraph(encode(s.solution)))]
  }

  /** The `otherinfo` line, present only when the other information is not empty. */
  function PluginOtherInfoLines(s: AlertState, encode: string -> string): seq<XmlLine>
  {
    if |s.otherInfo| > 0 then [Element("otherinfo", Paragraph(encode(s.otherInfo)))] else []
  }

  /** The reference line and the closing tag. */
  function PluginTailLines(s: AlertState, encode: string -> string): seq<XmlLine>
  {
    [Element("reference", Paragraph(encode(s.reference))), Close("alertitem")]
  }

  /** The lines of the `alertitem` fragment, in the order of the fixed report schema. */
  function PluginItemLines(s: AlertState, urls: Option<string>, encode: string -> string): seq<XmlLine>
    requires RanksInRange(s)
  {
    PluginHeadLines(s, urls, encode) + PluginOtherInfoLines(s, encode) + PluginTailLines(s, encode)
  }

  /** The tag of every element of the `alertitem` fragment, in order. */
  function PluginItemTags(withOtherInfo: bool): seq<string>
  {
    ["pluginid", "alert", "riskcode", "reliability", "riskdesc", "desc", "solution"]
    + (if withOtherInfo then ["otherinfo"] else [])
    + ["reference"]
  }

  /** Every line but a verbatim one ends in CR LF. */
  lemma LineEndsWithCrLf(l: XmlLine)
    requires !l.Verbatim?
    ensures |LineText(l)| >= 2 && LineText(l)[|LineText(l)| - 2..] == "\r\n"
  {
    var r := LineText(l);
    match l
    case Open(t) => assert r == ("<" + t + ">") + "\r\n";
    case Close(t) => assert r == ("</" + t + ">") + "\r\n";
    case Element(t, x) => assert r == ("  <" + t + ">" + x + "</" + t + ">") + "\r\n";
  }

  /** Sequence concatenation regrouped; a step the solver does not always find unaided in RenderAppend. */
  lemma Associative(a: string, b: string, c: string)
    ensures a + b + c == a + (b + c)
  {
  }

  /** A single line renders as its own text. */
  lemma RenderOne(l: XmlLine)
    ensures Render([l]) == LineText(l)
  {
    assert [l][..0] == [];
  }

  /** Rendering one more line appends that line's text. */
  lemma RenderSnoc(xs: seq<XmlLine>, l: XmlLine)
    ensures Render(xs + [l]) == Render(xs) + LineText(l)
  {
    assert (xs + [l])[..|xs|] == xs;
  }

  /** Rendering a concatenation renders each part. */
  lemma {:induction false} RenderAppend(xs: seq<XmlLine>, ys: seq<XmlLine>)
    ensures Render(xs + ys) == Render(xs) + Render(ys)
    decreases |ys|
  {
    if ys == [] {
      assert xs + ys == xs;
    } else {
      var init, last := ys[..|ys| - 1], ys[|ys| - 1];
      SplitLast(xs, ys);
      RenderSnoc(xs + init, last);
      RenderAppend(xs, init);
      RenderSnoc(init, last);
      Associative(Render(xs), Render(init), LineText(last));
    }
  }

  /** The last element split off a non-empty sequence, and off its concatenation with another. */
  lemma SplitLast(xs: seq<XmlLine>, ys: seq<XmlLine>)
    requires ys != []
    ensures ys == ys[..|ys| - 1] + [ys[|ys| - 1]]
    ensures xs + ys == (xs + ys[..|ys| - 1]) + [ys[|ys| - 1]]
  {
  }

  lemma {:induction false} ElementTagsAppend(xs: seq<XmlLine>, ys: seq<XmlLine>)
    ensures ElementTags(xs + ys) == ElementTags(xs) + ElementTags(ys)
    decreases |xs|
  {
    if xs == [] {
      assert xs + ys == ys;
    } else {
      assert (xs + ys)[1..] == xs[1..] + ys;
      ElementTagsAppend(xs[1..], ys);
    }
  }

  /** Nine lines render as their texts one after the other. */
  lemma RenderNine(l0: XmlLine, l1: XmlLine, l2: XmlLine, l3: XmlLine, l4: XmlLine, l5: XmlLine,
                   l6: XmlLine, l7: XmlLine, l8: XmlLine)
    ensures Render([l0, l1, l2, l3, l4, l5, l6, l7, l8])
            == LineText(l0) + LineText(l1) + LineText(l2) + LineText(l3) + LineText(l4)
               + LineText(l5) + LineText(l6) + LineText(l7) + LineText(l8)
  {
    calc {
      Render([l0, l1, l2, l3, l4, l5, l6, l7, l8]);
    == { assert [l0, l1, l2, l3, l4, l5, l6, l7, l8][..8] == [l0, l1, l2, l3, l4, l5, l6, l7]; }
      Render([l0, l1, l2, l3, l4, l5, l6, l7]) + LineText(l8);
    == { assert [l0, l1, l2, l3, l4, l5, l6, l7][..7] == [l0, l1, l2, l3, l4, l5, l6]; }
      Render([l0, l1, l2, l3, l4, l5, l6]) + LineText(l7) + LineText(l8);
    == { assert [l0, l1, l2, l3, l4, l5, l6][..6] == [l0, l1, l2, l3, l4, l5]; }
      Render([l0, l1, l2, l3, l4, l5]) + LineText(l6) + LineText(l7) + LineText(l8);
    == { assert [l0, l1, l2, l3, l4, l5][..5] == [l0, l1, l2, l3, l4]; }
      Render([l0, l1, l2, l3, l4]) + LineText(l5) + LineText(l6) + LineText(l7) + LineText(l8);
    == { assert [l0, l1, l2, l3, l4][..4] == [l0, l1, l2, l3]; }
      Render([l0, l1, l2, l3]) + LineText(l4) + LineText(l5) + LineText(l6) + LineText(l7) + LineText(l8);
    == { assert [l0, l1, l2, l3][..3] == [l0, l1, l2]; }
      Render([l0, l1, l2]) + LineText(l3) + LineText(l4) + LineText(l5) + LineText(l6) + LineText(l7) + LineText(l8);
    == { assert [l0, l1, l2][..2] == [l0, l1]; }
      Render([l0, l1]) + LineText(l2) + LineText(l3) + LineText(l4) + LineText(l5) + LineText(l6) + LineText(l7) + LineText(l8);
    == { assert [l0, l1][..1] == [l0]; }
      Render([l0]) + LineText(l1) + LineText(l2) + LineText(l3) + LineText(l4) + LineText(l5) + LineText(l6) + LineText(l7) + LineText(l8);
    == { RenderOne(l0); }
      LineText(l0) + LineText(l1) + LineText(l2) + LineText(l3) + LineText(l4) + LineText(l5) + LineText(l6) + LineText(l7) + LineText(l8);
    }
  }

  /** The head lines render as the opening tag followed by the texts of their elements. */
  lemma HeadLinesText(pluginId: string, alert: string, risk: string, reliability: string, riskDesc: string,
                      desc: string, urls: string, solution: string)
    ensures Render([Open("alertitem"), Element("pluginid", pluginId), Element("alert", alert),
                    Element("riskcode", risk), Element("reliability", reliability), Element("riskdesc", riskDesc),
                    Element("desc", desc), Verbatim(urls), Element("solution", solution)])
            == "<alertitem>\r\n" + ElementLine("pluginid", pluginId) + ElementLine("alert", alert)
               + ElementLine("riskcode", risk) + ElementLine("reliability", reliability)
               + ElementLine("riskdesc", riskDesc) + ElementLine("desc", desc) + urls
               + ElementLine("solution", solution)
  {
    RenderNine(Open("alertitem"), Element("pluginid", pluginId), Element("alert", alert),
               Element("riskcode", risk), Element("reliability", reliability), Element("riskdesc", riskDesc),
               Element("desc", desc), Verbatim(urls), Element("solution", solution));
    assert LineText(Open("alertitem")) == "<alertitem>\r\n";
  }

  /** Two lines render as their texts one after the other. */
  lemma RenderTwo(l0: XmlLine, l1: XmlLine)
    ensures Render([l0, l1]) == LineText(l0) + LineText(l1)
  {
    calc {
      Render([l0, l1]);
    == { assert [l0, l1][..1] == [l0]; }
      Render([l0]) + LineText(l1);
    == { RenderOne(l0); }
      LineText(l0) + LineText(l1);
    }
  }

  /** The characters toPluginXML writes up to and including the solution. */
  lemma PluginHeadText(s: AlertState, urls: Option<string>, encode: string -> string)
    requires RanksInRange(s)
    ensures Render(PluginHeadLines(s, urls, encode))
            == "<alertitem>\r\n"
               + ElementLine("pluginid", DecimalString(s.pluginId))
               + ElementLine("alert", s.alert)
               + ElementLine("riskcode", DecimalString(s.risk))
               + ElementLine("reliability", DecimalString(s.reliability))
               + ElementLine("riskdesc", encode(RiskDescription(s)))
               + ElementLine("desc", Paragraph(encode(s.description)))
               + AppendText(urls)
               + ElementLine("solution", Paragraph(encode(s.solution)))
  {
    HeadLinesText(DecimalString(s.pluginId), s.alert, DecimalString(s.risk), DecimalString(s.reliability),
                  encode(RiskDescription(s)), Paragraph(encode(s.description)), AppendText(urls),
                  Paragraph(encode(s.solution)));
  }

  lemma PluginTailText(s: AlertState, encode: string -> string)
    ensures Render(PluginTailLines(s, encode))
            == ElementLine("reference", Paragraph(encode(s.reference))) + "</alertitem>\r\n"
  {
    var t := PluginTailLines(s, encode);
    RenderTwo(t[0], t[1]);
    assert LineText(t[1]) == "</alertitem>\r\n";
  }

  /** toPluginXML writes exactly the characters of its lines. */
  lemma PluginXmlRender(s: AlertState, urls: Option<string>, encode: string -> string)
    requires RanksInRange(s)
    ensures ToPluginXml(s, urls, encode) == Some(Render(PluginItemLines(s, urls, encode)))
  {
    var head, mid, tail := PluginHeadLines(s, urls, encode), PluginOtherInfoLines(s, encode), PluginTailLines(s, encode);
    var midText := if |s.otherInfo| > 0 then ElementLine("otherinfo", Paragraph(encode(s.otherInfo))) else "";
    var tailText := ElementLine("reference", Paragraph(encode(s.reference)));
    RenderAppend(head + mid, tail);
    RenderAppend(head, mid);
    PluginHeadText(s, urls, encode);
    PluginTailText(s, encode);
    if mid != [] {
      RenderOne(mid[0]);
    }
    assert Render(mid) == midText;
    Associative(Render(head) + midText, tailText, "</alertitem>\r\n");
  }

  /** The tag a single line contributes: its own if it is an element, none otherwise. */
  function LineTag(l: XmlLine): (r: seq<string>)
    ensures |r| <= 1
  {
    if l.Element? then [l.tag] else []
  }

  /** The tags of three lines. */
  lemma ThreeTags(l0: XmlLine, l1: XmlLine, l2: XmlLine)
    ensures ElementTags([l0, l1, l2]) == LineTag(l0) + LineTag(l1) + LineTag(l2)
  {
    assert [l0, l1, l2][1..] == [l1, l2];
    TwoLineTags(l1, l2);
  }

  /** The tags of nine lines shaped like the head of the `alertitem` fragment. */
  lemma NineTags(l0: XmlLine, l1: XmlLine, l2: XmlLine, l3: XmlLine, l4: XmlLine, l5: XmlLine,
                 l6: XmlLine, l7: XmlLine, l8: XmlLine)
    requires !l0.Element? && !l7.Element?
    requires l1.Element? && l2.Element? && l3.Element? && l4.Element? && l5.Element? && l6.Element? && l8.Element?
    ensures ElementTags([l0, l1, l2, l3, l4, l5, l6, l7, l8]) == [l1.tag, l2.tag, l3.tag, l4.tag, l5.tag, l6.tag, l8.tag]
  {
    var a, b, c := [l0, l1, l2], [l3, l4, l5], [l6, l7, l8];
    assert [l0, l1, l2, l3, l4, l5, l6, l7, l8] == a + b + c;
    ElementTagsAppend(a + b, c);
    ElementTagsAppend(a, b);
    ThreeTags(l0, l1, l2);
    ThreeTags(l3, l4, l5);
    ThreeTags(l6, l7, l8);
  }

  /** The element tags of the first nine lines of the `alertitem` fragment. */
  lemma PluginHeadTags(s: AlertState, urls: Option<string>, encode: string -> string)
    requires RanksInRange(s)
    ensures ElementTags(PluginHeadLines(s, urls, encode))
            == ["pluginid", "alert", "riskcode", "reliability", "riskdesc", "desc", "solution"]
  {
    var h := PluginHeadLines(s, urls, encode);
    assert h == [h[0], h[1], h[2], h[3], h[4], h[5], h[6], h[7], h[8]];
    NineTags(h[0], h[1], h[2], h[3], h[4], h[5], h[6], h[7], h[8]);
  }

  /** The tags of a single line. */
  lemma OneLineTags(l: XmlLine)
    ensures ElementTags([l]) == LineTag(l)
  {
    assert [l][1..] == [];
  }

  /** The tags of two lines. */
  lemma TwoLineTags(l0: XmlLine, l1: XmlLine)
    ensures ElementTags([l0, l1]) == LineTag(l0) + LineTag(l1)
  {
    assert [l0, l1][1..] == [l1];
    OneLineTags(l1);
  }

  /** The element tags of toPluginXML, in order. */
  lemma PluginXmlTags(s: AlertState, urls: Option<string>, encode: string -> string)
    requires RanksInRange(s)
    ensures ElementTags(PluginItemLines(s, urls, encode)) == PluginItemTags(|s.otherInfo| > 0)
  {
    var head, mid, tail := PluginHeadLines(s, urls, encode), PluginOtherInfoLines(s, encode), PluginTailLines(s, encode);
    ElementTagsAppend(head + mid, tail);
    ElementTagsAppend(head, mid);
    PluginHeadTags(s, urls, encode);
    if mid != [] {
      OneLineTags(mid[0]);
    }
    assert ElementTags(mid) == if |s.otherInfo| > 0 then ["otherinfo"] else [];
    TwoLineTags(tail[0], tail[1]);
    assert ElementTags(tail) == ["reference"];
  }

  /** Appending lines that are not verbatim keeps the verbatim lines where they were. */
  lemma VerbatimOnlyAt(a: seq<XmlLine>, b: seq<XmlLine>, k: int)
    requires forall i :: 0 <= i < |a| && i != k ==> !a[i].Verbatim?
    requires forall i :: 0 <= i < |b| ==> !b[i].Verbatim?
    ensures forall i :: 0 <= i < |a + b| && i != k ==> !(a + b)[i].Verbatim?
  {
    forall i | 0 <= i < |a + b| && i != k ensures !(a + b)[i].Verbatim? {
      if i >= |a| {
        assert (a + b)[i] == b[i - |a|];
      }
    }
  }

  /** The head lines: the opening tag first, the risk description sixth, and only the urls line verbatim. */
  lemma HeadLinesShape(pluginId: string, alert: string, risk: string, reliability: string, riskDesc: string,
                       desc: string, urls: string, solution: string)
    ensures var head := [Open("alertitem"), Element("pluginid", pluginId), Element("alert", alert),
                         Element("riskcode", risk), Element("reliability", reliability),
                         Element("riskdesc", riskDesc), Element("desc", desc), Verbatim(urls),
                         Element("solution", solution)];
            && head[0] == Open("alertitem") && head[5] == Element("riskdesc", riskDesc)
            && head[7] == Verbatim(urls)
            && (forall i :: 0 <= i < |head| && i != 7 ==> !head[i].Verbatim?)
  {
  }

  /** Head, optional middle and tail put together keep the head's lines in place and end with the tail. */
  lemma ItemLinesShape(head: seq<XmlLine>, mid: seq<XmlLine>, tail: seq<XmlLine>)
    requires |head| == 9 && (forall i :: 0 <= i < |head| && i != 7 ==> !head[i].Verbatim?)
    requires forall i :: 0 <= i < |mid| ==> !mid[i].Verbatim?
    requires |tail| == 2 && !tail[0].Verbatim? && !tail[1].Verbatim?
    ensures var lines := head + mid + tail;
            && lines[0] == head[0] && lines[5] == head[5] && lines[7] == head[7]
            && lines[|lines| - 1] == tail[1]
            && (forall i :: 0 <= i < |lines| && i != 7 ==> !lines[i].Verbatim?)
  {
    VerbatimOnlyAt(head, mid, 7);
    VerbatimOnlyAt(head + mid, tail, 7);
  }

  /** Where the fixed lines of the `alertitem` fragment sit, and that only the urls line is verbatim. */
  lemma PluginLinesShape(s: AlertState, urls: Option<string>, encode: string -> string)
    requires RanksInRange(s)
    ensures var lines := PluginItemLines(s, urls, encode);
            && lines[0] == Open("alertitem") && lines[|lines| - 1] == Close("alertitem")
            && lines[7] == Verbatim(AppendText(urls))
            && lines[5] == Element("riskdesc", encode(MSG_RISK[s.risk] + " (" + MSG_RELIABILITY[s.reliability] + ")"))
            && (forall i :: 0 <= i < |lines| && i != 7 ==> !lines[i].Verbatim?)
  {
    HeadLinesShape(DecimalString(s.pluginId), s.alert, DecimalString(s.risk), DecimalString(s.reliability),
                   encode(RiskDescription(s)), Paragraph(encode(s.description)), AppendText(urls),
                   Paragraph(encode(s.solution)));
    ItemLinesShape(PluginHeadLines(s, urls, encode), PluginOtherInfoLines(s, encode), PluginTailLines(s, encode));
  }

  /** The `otherinfo` element is written exactly when the other information is not empty. */
  lemma OtherInfoWrittenIffPresent(s: AlertState)
    ensures "otherinfo" in PluginItemTags(|s.otherInfo| > 0) <==> |s.otherInfo| > 0
  {
    var tags := PluginItemTags(|s.otherInfo| > 0);
    if |s.otherInfo| > 0 {
      assert tags[7] == "otherinfo";
    } else {
      assert tags == ["pluginid", "alert", "riskcode", "reliability", "riskdesc", "desc", "solution", "reference"];
    }
  }

  /**
   * toPluginXML writes the `alertitem` lines: the opening tag, pluginid, alert, riskcode,
   * reliability, riskdesc and desc, then the caller's urls verbatim, then solution, otherinfo
   * exactly when the other information is not empty, reference, and the closing tag; every
   * line but the urls ends in CR LF (LineEndsWithCrLf).
   */
  lemma PluginXmlLayout(s: AlertState, urls: Option<string>, encode: string -> string)
    requires RanksInRange(s)
    ensures var lines := PluginItemLines(s, urls, encode);
            && ToPluginXml(s, urls, encode) == Some(Render(lines))
            && ElementTags(lines) == PluginItemTags(|s.otherInfo| > 0)
            && lines[0] == Open("alertitem") && lines[|lines| - 1] == Close("alertitem")
            && lines[7] == Verbatim(AppendText(urls))
            && lines[5] == Element("riskdesc", encode(MSG_RISK[s.risk] + " (" + MSG_RELIABILITY[s.reliability] + ")"))
            && (forall i :: 0 <= i < |lines| && i != 7 ==> !lines[i].Verbatim?)
            && ("otherinfo" in ElementTags(lines) <==> |s.otherInfo| > 0)
  {
    PluginXmlRender(s, urls, encode);
    PluginXmlTags(s, urls, encode);
    PluginLinesShape(s, urls, encode);
    OtherInfoWrittenIffPresent(s);
  }

  /** The text of one field of the URL/parameter fragment: encoded, then soft-wrapped; null reads "null". */
  function UrlField(text: Option<string>, encode: string -> string): string
  {
    AppendText(BreakNoSpaceString(ReplaceEntity(text, encode)))
  }

  /** Alert.getUrlParamXML. */
  function UrlParamXml(s: AlertState, encode: string -> string): string
  {
    ElementLine("uri", UrlField(Some(s.uri), encode))
    + ElementLine("param", UrlField(Some(s.param), encode))
    + ElementLine("attack", UrlField(s.attack, encode))
    + ElementLine("otherinfo", UrlField(Some(s.otherInfo), encode))
  }

  /**
   * getUrlParamXML writes uri, param, attack and otherinfo in that order; removing the
   * inserted word breaks from any field gives the encoded field back, and a null attack is
   * written as "null".
   */
  lemma UrlParamXmlLayout(s: AlertState, encode: string -> string)
    ensures var lines := [Element("uri", UrlField(Some(s.uri), encode)),
                          Element("param", UrlField(Some(s.param), encode)),
                          Element("attack", UrlField(s.attack, encode)),
                          Element("otherinfo", UrlField(Some(s.otherInfo), encode))];
            UrlParamXml(s, encode) == Render(lines) && ElementTags(lines) == ["uri", "param", "attack", "otherinfo"]
    ensures ReplaceAll(UrlField(Some(s.uri), encode), ESCAPED_AMP + WORD_BREAK, ESCAPED_AMP) == encode(s.uri)
    ensures ReplaceAll(UrlField(Some(s.param), encode), ESCAPED_AMP + WORD_BREAK, ESCAPED_AMP) == encode(s.param)
    ensures ReplaceAll(UrlField(Some(s.otherInfo), encode), ESCAPED_AMP + WORD_BREAK, ESCAPED_AMP) == encode(s.otherInfo)
    ensures s.attack.Some? ==> ReplaceAll(UrlField(s.attack, encode), ESCAPED_AMP + WORD_BREAK, ESCAPED_AMP) == encode(s.attack.value)
    ensures s.attack.None? ==> UrlField(s.attack, encode) == "null"
  {
    var lines := [Element("uri", UrlField(Some(s.uri), encode)),
                  Element("param", UrlField(Some(s.param), encode)),
                  Element("attack", UrlField(s.attack, encode)),
                  Element("otherinfo", UrlField(Some(s.otherInfo), encode))];
    calc {
      Render(lines);
    == { assert lines == [lines[0], lines[1]] + [lines[2], lines[3]]; RenderAppend([lines[0], lines[1]], [lines[2], lines[3]]); }
      Render([lines[0], lines[1]]) + Render([lines[2], lines[3]]);
    == { RenderTwo(lines[0], lines[1]); RenderTwo(lines[2], lines[3]); }
      LineText(lines[0]) + LineText(lines[1]) + (LineText(lines[2]) + LineText(lines[3]));
    ==
      LineText(lines[0]) + LineText(lines[1]) + LineText(lines[2]) + LineText(lines[3]);
    ==
      UrlParamXml(s, encode);
    }
    calc {
      ElementTags(lines);
    == { assert lines[1..] == [lines[1], lines[2], lines[3]]; }
      ["uri"] + ElementTags([lines[1], lines[2], lines[3]]);
    == { assert [lines[1], lines[2], lines[3]][1..] == [lines[2], lines[3]]; }
      ["uri", "param"] + ElementTags([lines[2], lines[3]]);
    == { assert [lines[2], lines[3]][1..] == [lines[3]]; }
      ["uri", "param", "attack"] + ElementTags([lines[3]]);
    == { assert [lines[3]][1..] == []; }
      ["uri", "param", "attack", "otherinfo"];
    }
  }

  // ---------------------------------------------------------------------------------------
  // getIconUrl
  // ---------------------------------------------------------------------------------------

  /** The flag images: the green "ok" flag and one flag per risk level. */
  datatype Flag = OkFlag | InfoFlag | LowFlag | MedFlag | HighFlag

  /** The risk level a flag stands for; the "ok" flag stands for none. */
  function FlagRisk(f: Flag): Option<int>
  {
    match f
    case OkFlag => None
    case InfoFlag => Some(RISK_INFO)
    case LowFlag => Some(RISK_LOW)
    case MedFlag => Some(RISK_MEDIUM)
    case HighFlag => Some(RISK_HIGH)
  }

  /**
   * Alert.getIconUrl: a false positive always gets the "ok" flag; otherwise the flag of the
   * alert's risk, and none (null) for a risk outside the four levels.
   */
  function IconUrl(s: AlertState): (r: Option<Flag>)
    ensures s.reliability == FALSE_POSITIVE ==> r == Some(OkFlag)
    ensures s.reliability != FALSE_POSITIVE ==> (r.Some? <==> RISK_INFO <= s.risk <= RISK_HIGH)
    ensures s.reliability != FALSE_POSITIVE && r.Some? ==> FlagRisk(r.value) == Some(s.risk)
  {
    if s.reliability == FALSE_POSITIVE then Some(OkFlag)
    else if s.risk == RISK_INFO then Some(InfoFlag)
    else if s.risk == RISK_LOW then Some(LowFlag)
    else if s.risk == RISK_MEDIUM then Some(MedFlag)
    else if s.risk == RISK_HIGH then Some(HighFlag)
    else None
  }
}
