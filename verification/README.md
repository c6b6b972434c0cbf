# A verified model of the scanner Alert

This project models the finding record of the ZAP/Paros active scanner,
`org.parosproxy.paros.core.scanner.Alert`, in Dafny and proves properties about it.
An Alert carries:

- a risk level (informational, low, medium, high);
- a reliability (false positive, suspicious, warning);
- a title and descriptive texts;
- the URI, parameter and attack that triggered it;
- a link to the HTTP exchange that serves as its evidence.

The model covers four parts of the class:

- **The mutable record.** `Scanner.Alert` is a class with the same fields as the Java
  class. Its constructors and setters update those fields in place. Each of them is proved
  to produce exactly the state that a function of the module `AlertFields` computes from
  the previous state (`AlertState` is a snapshot of all the fields). Most text setters
  ignore a null argument. `setAttack` and `setMessage` do not. The public `setDetail` also
  takes the history reference from the message it is given.
- **Ordering and equality** (`AlertOrder`). `compareTo` is a lexicographic,
  case-insensitive ordering over risk, reliability, title, URI, parameter and other
  information. `equals` uses a different, narrower key: plugin id, URI, parameter and
  other information. The model proves that `compareTo` is a total preorder, that `equals`
  is an equivalence, and exactly how the two relations agree and disagree.
- **Report serialisation** (`AlertReport`). `toPluginXML` and `getUrlParamXML` are modelled
  as the strings they build, and each is proved equal to the rendering of a list of lines
  in a fixed tag order. The two text transforms (`paragraph`, `breakNoSpaceString`) are
  literal replace-alls; the model proves the paragraph shape and the round trip of the
  soft-wrap marker.
- **Fail-soft evidence** (`AlertEvidence`, and the `RecordAlert` constructors). The history
  store is modelled as two fallible calls, and the model says which failures are swallowed
  and which reach the caller.

`JavaString` models the parts of `java.lang.String` and `StringBuilder` that these
operations rely on: `compareToIgnoreCase`, `equalsIgnoreCase`, literal `replaceAll`,
`Integer.toString`, and appending a null `String`. `History` holds the collaborators,
reduced to what Alert reads from them.

A few behaviours of the code are easy to miss:

- `setAttack(null)` stores null, unlike the other text setters, which ignore a null
  argument. As a result, `getUrlParamXML` can write `<attack>null</attack>`.
- `toPluginXML` writes the title (`alert`) without entity-encoding it. Every other free
  text it writes is encoded.
- A null `urls` argument to `toPluginXML` is appended as the four characters `null`.
- `setMessage(null)` drops the held message, and `setHistoryRef(null)` clears the reference.
- Of the methods that write the history reference, only `setHistoryRef` also moves
  `sourceHistoryId` (`setSourceHistoryId` sets it on its own). The constructors that
  restore an alert from a row assign the history reference directly. Such an alert can
  therefore hold a reference while its `sourceHistoryId` is still 0.
- `getMessage` catches only the malformed-header and SQL failures of the history read.
  Any other (unchecked) failure reaches the caller.
- The doc comment of `equals` names "alert, uri and param" as the key. The code compares
  the plugin id, URI, parameter and other information, and the model follows the code.

## Model

| member | source | states |
|---|---|---|
| `JavaString.Fold` | src/org/parosproxy/paros/core/scanner/Alert.java:244-262 | the character fold used by both case-insensitive operations sends each capital A-Z to its own small letter and changes no other character |
| `JavaString.CompareToIgnoreCase` | src/org/parosproxy/paros/core/scanner/Alert.java:244-262 | definition of String.compareToIgnoreCase; its properties are the lemmas below |
| `JavaString.EqualsIgnoreCase` | src/org/parosproxy/paros/core/scanner/Alert.java:270-280 | definition of String.equalsIgnoreCase, characterised by EqualsIgnoreCaseMeansCaseVariants |
| `JavaString.EqualsIgnoreCaseMeansCaseVariants` | src/org/parosproxy/paros/core/scanner/Alert.java:270-280 | two strings are equal ignoring case exactly when they have the same length and differ at most in the case of ASCII letters |
| `JavaString.CompareToIgnoreCaseAntisymmetric` | src/org/parosproxy/paros/core/scanner/Alert.java:244-262 | swapping the operands of compareToIgnoreCase negates the result |
| `JavaString.CompareToIgnoreCaseZero` | src/org/parosproxy/paros/core/scanner/Alert.java:244-262 | compareToIgnoreCase is zero exactly when equalsIgnoreCase holds, in both directions |
| `JavaString.CompareToIgnoreCaseReflexive` | src/org/parosproxy/paros/core/scanner/Alert.java:244-262 | every string compares as zero with itself |
| `JavaString.CompareToIgnoreCaseTransitive` | src/org/parosproxy/paros/core/scanner/Alert.java:244-262 | the string order is transitive, and strict as soon as one step is strict |
| `JavaString.CompareToIgnoreCaseSubstitutes` | src/org/parosproxy/paros/core/scanner/Alert.java:244-262 | a string may be replaced by one equal to it ignoring case without changing any comparison |
| `JavaString.ReplaceAll` | src/org/parosproxy/paros/core/scanner/Alert.java:326-327 | definition of replaceAll with a literal pattern: left to right, non-overlapping; its properties are the lemmas below |
| `JavaString.ReplaceAllLength` | src/org/parosproxy/paros/core/scanner/Alert.java:336 | replaceAll changes the length by the difference of the pattern and replacement lengths per replaced occurrence |
| `JavaString.ReplaceAllAbsent` | src/org/parosproxy/paros/core/scanner/Alert.java:326-327 | replaceAll leaves a text without the pattern unchanged |
| `JavaString.ReplaceAllRemovesPattern` | src/org/parosproxy/paros/core/scanner/Alert.java:327 | after replaceAll the pattern no longer occurs, when the replacement cannot start or continue an occurrence of it |
| `JavaString.ReplaceAllNoNewOccurrence` | src/org/parosproxy/paros/core/scanner/Alert.java:327 | replaceAll creates no occurrence of another text that was absent from its input, under the same condition |
| `JavaString.InsertAfterRoundTrip` | src/org/parosproxy/paros/core/scanner/Alert.java:336 | inserting a marker after every occurrence of a pattern and then replacing pattern-plus-marker by the pattern gives the text back |
| `JavaString.Digits` | src/org/parosproxy/paros/core/scanner/Alert.java:296-299 | the decimal digits denote the number, with no leading zero |
| `JavaString.DecimalString` | src/org/parosproxy/paros/core/scanner/Alert.java:296-299 | the text written into pluginid, riskcode and reliability starts with '-' exactly for a negative number, its digits denote the number's magnitude, and it has no leading zero |
| `JavaString.AppendText` | src/org/parosproxy/paros/core/scanner/Alert.java:303 | StringBuilder.append of a string: the string itself, or "null" for null |
| `AlertFields.WithMessage` | src/org/parosproxy/paros/core/scanner/Alert.java:217-227 | definition of setMessage on the state; see MessageCacheOutlivesMessage |
| `AlertFields.WithDetail` | src/org/parosproxy/paros/core/scanner/Alert.java:151-164 | definition of the public setDetail on the state; see NullDetailsChangeOnlyAttack, DetailIdempotent and DetailKeepsSource |
| `AlertFields.CopyOf` | src/org/parosproxy/paros/core/scanner/Alert.java:285-291 | definition of newInstance on the state; see CopyOfFields |
| `AlertFields.Restored` | src/org/parosproxy/paros/core/scanner/Alert.java:100-120 | definition of `new Alert(recordAlert)` on the state; see RestoredWithoutHistory, RestoredWithMessage and RestoredHoldsReferenceWithoutSource |
| `AlertFields.RestoredWithRef` | src/org/parosproxy/paros/core/scanner/Alert.java:122-136 | definition of `new Alert(recordAlert, ref)` on the state; see RestoredWithNullRef, RestoredWithUnreadableRef and RestoredWithReadableRef |
| `AlertFields.CopyOfFields` | src/org/parosproxy/paros/core/scanner/Alert.java:285-291 | the copy agrees with the original on every field except alert id (-1), source history id (0), the held message and the three cached values (all null) |
| `AlertFields.NullDetailsChangeOnlyAttack` | src/org/parosproxy/paros/core/scanner/Alert.java:151-164 | setDetail with only nulls keeps every text except the attack, which becomes null; it drops the held message and keeps the history reference and the cache |
| `AlertFields.DetailIdempotent` | src/org/parosproxy/paros/core/scanner/Alert.java:151-164 | applying the same details twice has the effect of applying them once |
| `AlertFields.DetailKeepsSource` | src/org/parosproxy/paros/core/scanner/Alert.java:151-176 | neither setDetail variant changes sourceHistoryId, although both write the history reference |
| `AlertFields.RestoredHoldsReferenceWithoutSource` | src/org/parosproxy/paros/core/scanner/Alert.java:100-136 | an alert restored from a row can hold a reference with sourceHistoryId still 0, which setHistoryRef with that reference would change; the two-argument constructor also leaves it 0 |
| `AlertFields.MessageCacheOutlivesMessage` | src/org/parosproxy/paros/core/scanner/Alert.java:217-227 | setMessage(null) after setMessage(m) drops the message but keeps the method, body and URI cached from m |
| `AlertFields.RestoredWithoutHistory` | src/org/parosproxy/paros/core/scanner/Alert.java:100-120 | when the history row cannot be opened, the restored alert has the row's rank, title and id, no reference, no message and default details |
| `AlertFields.RestoredWithMessage` | src/org/parosproxy/paros/core/scanner/Alert.java:100-120 | when the message can be read, the whole restored state: the row's rank, title, id and seven details (NULL columns keep ""), the message, its three cached values and its own history reference, and sourceHistoryId 0 |
| `AlertFields.RestoredWithNullRef` | src/org/parosproxy/paros/core/scanner/Alert.java:122-136 | with a null reference, the row's details are set and there is neither a message nor a reference |
| `AlertFields.RestoredWithUnreadableRef` | src/org/parosproxy/paros/core/scanner/Alert.java:122-136 | when the reference's message cannot be read, the reference is kept and every detail keeps its default |
| `AlertFields.RestoredWithReadableRef` | src/org/parosproxy/paros/core/scanner/Alert.java:122-136 | when the message can be read, the row's details and the message are set, and the message's own reference replaces the one given |
| `AlertOrder.CompareTo` | src/org/parosproxy/paros/core/scanner/Alert.java:230-263 | definition of compareTo on two states; its properties are the lemmas below |
| `AlertOrder.Equals` | src/org/parosproxy/paros/core/scanner/Alert.java:270-280 | definition of equals, with any non-Alert argument (null included) giving false; see EqualsEquivalence |
| `AlertOrder.CompareToZero` | src/org/parosproxy/paros/core/scanner/Alert.java:230-263 | compareTo is zero exactly when risk, reliability, title, URI, parameter and other information agree, strings ignoring case |
| `AlertOrder.CompareToReflexive` | src/org/parosproxy/paros/core/scanner/Alert.java:230-263 | an alert compares as zero with itself |
| `AlertOrder.CompareToAntisymmetric` | src/org/parosproxy/paros/core/scanner/Alert.java:230-263 | a.compareTo(b) is the negation of b.compareTo(a) |
| `AlertOrder.CompareToTransitive` | src/org/parosproxy/paros/core/scanner/Alert.java:230-263 | compareTo is transitive and strict as soon as one step is strict |
| `AlertOrder.CompareToIgnoresOtherFields` | src/org/parosproxy/paros/core/scanner/Alert.java:230-263 | only the six-field key matters: plugin id and all other fields never change a comparison |
| `AlertOrder.EqualsEquivalence` | src/org/parosproxy/paros/core/scanner/Alert.java:270-280 | equals is reflexive, symmetric and transitive on alerts and false for any other object |
| `AlertOrder.EqualsIgnoresOtherFields` | src/org/parosproxy/paros/core/scanner/Alert.java:270-280 | changing risk, reliability, title, description, solution, attack or reference never changes equals, on either side |
| `AlertOrder.CompareZeroSamePluginEquals` | src/org/parosproxy/paros/core/scanner/Alert.java:230-280 | alerts that compare as zero and share a plugin id are equal |
| `AlertOrder.EqualsSameRankComparesZero` | src/org/parosproxy/paros/core/scanner/Alert.java:230-280 | equal alerts whose risk, reliability and title also agree compare as zero |
| `AlertOrder.OrderAndEqualityDisagree` | src/org/parosproxy/paros/core/scanner/Alert.java:230-280 | there are equal alerts that compare as non-zero, and alerts comparing as zero that are not equal |
| `AlertOrder.CopyMatchesOriginal` | src/org/parosproxy/paros/core/scanner/Alert.java:285-291 | the copy made by newInstance equals the original and compares as zero with it, both ways |
| `AlertOrder.CompareToLexicographic` | src/org/parosproxy/paros/core/scanner/Alert.java:230-263 | the priority and direction of the order: a lower risk gives -1 and a higher one 1; with equal risks the same for reliability; then the first of title, URI and parameter that differs ignoring case decides, with its ignore-case comparison as the result; otherwise the other information's comparison is the result |
| `AlertOrder.HighRanksAboveLow` | src/org/parosproxy/paros/core/scanner/Alert.java:233-237 | a high-risk alert orders after a low-risk one whatever the other fields |
| `AlertOrder.SameLocationEquals` | src/org/parosproxy/paros/core/scanner/Alert.java:270-280 | two alerts of plugin 10 on "/a" and "id" are equal whatever their risks and titles |
| `AlertEvidence.GetMessage` | src/org/parosproxy/paros/core/scanner/Alert.java:363-375 | the held message is returned; otherwise the message read through the reference; no message without a reference or after a malformed-header or SQL failure; an unchecked failure reaches the caller, and nothing else does |
| `AlertEvidence.RestoredWithoutHistoryHasNoMessage` | src/org/parosproxy/paros/core/scanner/Alert.java:100-120 | an alert restored from a row whose history is gone yields no evidence and raises nothing |
| `AlertEvidence.RestoredMessageIsKept` | src/org/parosproxy/paros/core/scanner/Alert.java:100-120 | an alert restored with its message returns that message without reading again |
| `AlertEvidence.RestoredUnreadableReadsAgain` | src/org/parosproxy/paros/core/scanner/Alert.java:122-136 | an alert whose message could not be read at construction reads again on getMessage: no message after a swallowed failure, and an unchecked failure reaches the caller |
| `AlertEvidence.RestoredWithNullRefHasNoMessage` | src/org/parosproxy/paros/core/scanner/Alert.java:122-136 | an alert restored with a null reference yields no evidence and raises nothing |
| `AlertEvidence.CopyResolvesThroughHistory` | src/org/parosproxy/paros/core/scanner/Alert.java:285-291 | the copy holds no message, so its evidence is what the original yields once its message is dropped |
| `AlertReport.UnescapeListTags` | src/org/parosproxy/paros/core/scanner/Alert.java:327 | definition of the second half of paragraph; see UnescapeRemovesEscapedTags |
| `AlertReport.Paragraph` | src/org/parosproxy/paros/core/scanner/Alert.java:324-331 | definition of paragraph; its properties are the lemmas below, LineBreaksAtCrLf, LineBreaksAtLf and LineBreaksOfOneLine for the line breaks and the Unescape lemmas for the list tags |
| `AlertReport.UnescapeRemovesEscapedTags` | src/org/parosproxy/paros/core/scanner/Alert.java:327 | after the un-escaping none of the four escaped list tags remains in the text |
| `AlertReport.UnescapeKeepsOtherText` | src/org/parosproxy/paros/core/scanner/Alert.java:327 | text without the four escaped list tags, "&amp;" included, passes the un-escaping unchanged |
| `AlertReport.UnescapeListItem` | src/org/parosproxy/paros/core/scanner/Alert.java:327 | the escaped list item "&lt;li&gt;" becomes the literal tag "<li>" |
| `AlertReport.UnescapeListOpen` | src/org/parosproxy/paros/core/scanner/Alert.java:327 | the escaped list opening "&lt;ul&gt;" becomes the literal tag "<ul>" |
| `AlertReport.UnescapeListClose` | src/org/parosproxy/paros/core/scanner/Alert.java:327 | the escaped list closing "&lt;/ul&gt;" becomes the literal tag "</ul>" |
| `AlertReport.UnescapeListItemClose` | src/org/parosproxy/paros/core/scanner/Alert.java:327 | the escaped item closing "&lt;/li&gt;" becomes the literal tag "</li>" |
| `AlertReport.LineBreaksOfOneLine` | src/org/parosproxy/paros/core/scanner/Alert.java:326 | a text without line feeds has no line break to turn into a paragraph break and is left as it is |
| `AlertReport.LineBreaksAtCrLf` | src/org/parosproxy/paros/core/scanner/Alert.java:326 | for a line without a line feed (a lone CR allowed) followed by CR LF and the rest, the line is kept, the CR LF becomes one "</p><p>", and the rest is processed the same way |
| `AlertReport.LineBreaksAtLf` | src/org/parosproxy/paros/core/scanner/Alert.java:326 | for a line without a line feed and not ending in CR (a CR elsewhere allowed) followed by a lone LF and the rest, the line is kept, the LF becomes one "</p><p>", and the rest is processed the same way |
| `AlertReport.ParagraphOfOneLine` | src/org/parosproxy/paros/core/scanner/Alert.java:324-331 | a text without line feeds becomes one paragraph in which only the list tags are un-escaped |
| `AlertReport.ParagraphOfListItem` | src/org/parosproxy/paros/core/scanner/Alert.java:324-331 | paragraph of "&lt;li&gt;" is "<p><li></p>" |
| `AlertReport.ParagraphShape` | src/org/parosproxy/paros/core/scanner/Alert.java:324-331 | the un-escaping of the list tags never touches the wrapping "<p>" and "</p>" |
| `AlertReport.ParagraphForm` | src/org/parosproxy/paros/core/scanner/Alert.java:324-331 | paragraph's result starts with "<p>", ends with "</p>" and contains no line feed |
| `AlertReport.ParagraphOfPlainText` | src/org/parosproxy/paros/core/scanner/Alert.java:324-331 | text without line feeds or escaped list tags is only wrapped in "<p>" and "</p>" |
| `AlertReport.BreakNoSpaceString` | src/org/parosproxy/paros/core/scanner/Alert.java:333-340 | null stays null; otherwise deleting each inserted "<wbr/>" after "&amp;" gives the text back, and the text grows by six per "&amp;" |
| `AlertReport.ReplaceEntity` | src/org/parosproxy/paros/core/scanner/Alert.java:316-322 | null stays null and any other text is the encoder's output |
| `AlertReport.ToPluginXml` | src/org/parosproxy/paros/core/scanner/Alert.java:293-314 | a fragment is produced exactly when risk and reliability index the two label arrays |
| `AlertReport.LineEndsWithCrLf` | src/org/parosproxy/paros/core/scanner/Alert.java:294-312 | every opening, closing and element line ends in CR LF |
| `AlertReport.PluginXmlRender` | src/org/parosproxy/paros/core/scanner/Alert.java:293-314 | toPluginXML's text is exactly its lines rendered one after another |
| `AlertReport.PluginXmlTags` | src/org/parosproxy/paros/core/scanner/Alert.java:293-314 | the element tags appear in the order pluginid, alert, riskcode, reliability, riskdesc, desc, solution, [otherinfo], reference |
| `AlertReport.PluginLinesShape` | src/org/parosproxy/paros/core/scanner/Alert.java:294-312 | the fragment opens and closes with alertitem, the urls ("null" for null) sit verbatim in eighth place as the only verbatim line, and riskdesc holds the encoded risk and reliability labels |
| `AlertReport.OtherInfoWrittenIffPresent` | src/org/parosproxy/paros/core/scanner/Alert.java:306-308 | the otherinfo tag is written exactly when the other information is not empty |
| `AlertReport.PluginXmlLayout` | src/org/parosproxy/paros/core/scanner/Alert.java:293-314 | the full layout of toPluginXML: rendering, tag order, fixed lines, line endings and the otherinfo condition |
| `AlertReport.UrlParamXml` | src/org/parosproxy/paros/core/scanner/Alert.java:450-457 | definition of getUrlParamXML; see UrlParamXmlLayout |
| `AlertReport.UrlParamXmlLayout` | src/org/parosproxy/paros/core/scanner/Alert.java:450-457 | getUrlParamXML writes uri, param, attack and otherinfo in that order; removing the word breaks from any of the four fields gives the encoded field back; a null attack is written as "null" |
| `AlertReport.IconUrl` | src/org/parosproxy/paros/core/scanner/Alert.java:407-424 | a false positive always gets the ok flag; otherwise there is a flag exactly for the four risk levels, and it is the flag of the alert's risk |
| `Scanner.Alert.constructor` | src/org/parosproxy/paros/core/scanner/Alert.java:89-92 | every field takes its declared initial value, with the given plugin id |
| `Scanner.Alert.WithRank` | src/org/parosproxy/paros/core/scanner/Alert.java:94-98 | the initial state with the given rank, and the title unless it is null |
| `Scanner.Alert.FromRecord` | src/org/parosproxy/paros/core/scanner/Alert.java:100-120 | the row's rank, title and id; then, when the history row opens and its message reads, the row's details and the message; every failure is swallowed |
| `Scanner.Alert.FromRecordWithRef` | src/org/parosproxy/paros/core/scanner/Alert.java:122-136 | the row's rank, title and id and the given reference; the details are set when the reference is null or its message reads |
| `Scanner.Alert.SetRiskReliability` | src/org/parosproxy/paros/core/scanner/Alert.java:138-141 | sets risk and reliability and nothing else |
| `Scanner.Alert.SetAlert` | src/org/parosproxy/paros/core/scanner/Alert.java:143-147 | a null title is ignored; otherwise only the title changes |
| `Scanner.Alert.SetDetail` | src/org/parosproxy/paros/core/scanner/Alert.java:151-164 | the seven texts, then the message, then the message's history reference when it is non-null |
| `Scanner.Alert.SetDetailWithHistoryRef` | src/org/parosproxy/paros/core/scanner/Alert.java:166-176 | the seven texts, then the history reference as given, null included |
| `Scanner.Alert.SetUri` | src/org/parosproxy/paros/core/scanner/Alert.java:178-183 | a null URI is ignored; otherwise only the URI changes |
| `Scanner.Alert.SetDescription` | src/org/parosproxy/paros/core/scanner/Alert.java:186-190 | a null description is ignored; otherwise only the description changes |
| `Scanner.Alert.SetParam` | src/org/parosproxy/paros/core/scanner/Alert.java:192-196 | a null parameter is ignored; otherwise only the parameter changes |
| `Scanner.Alert.SetOtherInfo` | src/org/parosproxy/paros/core/scanner/Alert.java:199-203 | a null text is ignored; otherwise only the other information changes |
| `Scanner.Alert.SetSolution` | src/org/parosproxy/paros/core/scanner/Alert.java:205-209 | a null solution is ignored; otherwise only the solution changes |
| `Scanner.Alert.SetReference` | src/org/parosproxy/paros/core/scanner/Alert.java:211-215 | a null reference is ignored; otherwise only the reference changes |
| `Scanner.Alert.SetMessage` | src/org/parosproxy/paros/core/scanner/Alert.java:217-227 | a message is held and its method, body and URI cached; null drops only the held message |
| `Scanner.Alert.SetAlertId` | src/org/parosproxy/paros/core/scanner/Alert.java:446-448 | sets the alert id and nothing else |
| `Scanner.Alert.SetSourceHistoryId` | src/org/parosproxy/paros/core/scanner/Alert.java:463-465 | sets the source history id and nothing else |
| `Scanner.Alert.SetHistoryRef` | src/org/parosproxy/paros/core/scanner/Alert.java:471-476 | stores the reference; a non-null one also sets the source history id |
| `Scanner.Alert.SetAttack` | src/org/parosproxy/paros/core/scanner/Alert.java:482-484 | stores the attack unconditionally, null included, and nothing else |
| `Scanner.Alert.NewInstance` | src/org/parosproxy/paros/core/scanner/Alert.java:285-291 | a fresh object whose state is CopyOf of this one; this object is not modified |
| `Scanner.Alert.CompareTo` | src/org/parosproxy/paros/core/scanner/Alert.java:230-263 | the early-return comparison computes AlertOrder.CompareTo of the two states |
| `Scanner.Alert.GetMessage` | src/org/parosproxy/paros/core/scanner/Alert.java:363-375 | returns AlertEvidence.GetMessage of the current state and changes nothing |

## Left out

- JavaString.Fold: folds only the ASCII letters A-Z, where Java's compareToIgnoreCase and equalsIgnoreCase fold all of Unicode. The same fold is shared by both operations, so compare-zero and equal-ignoring-case still agree.
- JavaString.CompareToIgnoreCase: strings are sequences of Unicode code points, while a Java `String` is a sequence of UTF-16 code units. For text wholly below U+10000 the two agree. A character above U+FFFF is one element here and two surrogate code units in Java, so the length difference the comparison returns can differ, and where Java compares a surrogate with a character from U+E000 to U+FFFF the sign can differ too. The same applies to JavaString.EqualsIgnoreCase, which compares lengths, and to every length the model states.
- Logging: the logger field and its calls have no effect on any field or result.
- History store internals: `new HistoryReference(id)` and `getHttpMessage()` are the fallible functions `open` and `read` of `HistoryStore`. They are assumed to answer the same way every time they are asked, and the database behind them is not part of this model.
- HttpMessage and URI are reduced to a record of request method, body, URI and history reference. The URI is kept as a string.
- The entity encoder (`ReportGenerator.entityEncode`) is not part of this model. It is a parameter about which nothing is assumed.
- The icon URLs (`Constant.*_FLAG_IMAGE_URL`) are the tags of the `Flag` datatype.
- Regular expressions: every `replaceAll` in Alert uses a literal pattern, so the model replaces literal text only.
- AlertReport.Paragraph: takes a non-null text. In Java a null text throws NullPointerException at the first `replaceAll` (line 326); that exception is not modelled, because every caller in Alert (lines 301-310) passes `replaceEntity` of the description, solution, other information or reference, and those fields start as "" and every setter ignores null, so they are never null.
- Scanner.Alert.CompareTo: takes a non-null Alert. In Java, a non-Alert argument throws ClassCastException at the cast, and a null argument throws NullPointerException at the first field access. Neither exception is modelled. equals takes `Obj`, which is an Alert or any other object, null included.
- Java's 32-bit `int` is modelled as an unbounded `int`. No field is ever computed by arithmetic, so no wrap-around can occur.
- The getters that only return a field are not separate members. Each such field is a field of `Scanner.Alert`.
- The `StringBuilder` capacities (150 and 200) have no effect on the text and are left out.
