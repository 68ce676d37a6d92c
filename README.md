# PurpleFox chart reconciliation, modelled in Dafny

PurpleFox keeps a Salesforce Lightning component (`dynamicCharts`) in step with
a CRM Analytics dashboard. The pipeline has several stages:

1. **Dashboard reader.** It walks the retrieved dashboard's grid in reading
   order. It emits one canonical chart per chart widget into `charts.json`.
   Style metadata comes from the text widget beside the chart or from its
   subtitle.
2. **Component reader.** It cuts the `chartSettings = {...}` literal out of
   the component's JavaScript. It collects the `initChart` calls and writes
   the charts the component currently shows into `revEngCharts.json`.
3. **Change-request generator.** It compares the two chart lists by
   normalised (kebab-case) id. It yields `add`, `update` (with per-property
   mismatches) and `remove` changes, and numbered instructions. The
   standalone interpreter renders the same instructions.
4. **Synchroniser.** It applies the changes to the settings literal in the
   component's JavaScript. It also adds or removes the nav entries and chart
   pages in the component's HTML.
5. **The component itself.** It turns the four filter pickers (host,
   nation, season, ski) into SAQL filter clauses. It wraps them in option
   queries and chart queries, and overlays a chart's settings on its chart
   options.

Each stage is modelled as pure functions (the specification) and, where the
source loops or mutates, as methods proved equal to those functions. Files and
the modules they hold:

| file | module | models |
|---|---|---|
| basics.dfy | Basics | `Option`, `Result` |
| text.dfy | Text | JavaScript string operations: ASCII case mapping, `trim`, `indexOf`, `split`, `join` |
| json.dfy | Json | JSON values with ordered object keys, truthiness, `String(v)`, `JSON.stringify` |
| literal.dfy | Literal | a parser for the object literal that the readers evaluate |
| bracescan.dfy | BraceScan | the balanced-brace scan shared by the component reader and the synchroniser |
| naming.dfy | Naming | `toKebab` |
| style_text.dfy | StyleText | `parseStyleString`, `parseTextWidget`, `mapColors`, `normalizeType` |
| saql.dfy | Saql | `queryToSaql` |
| ledger.dfy | Ledger | `updateChartStyles` (the chart-style ledger file) |
| layout_sort.dfy | LayoutSort | the row/column sort of the grid layout |
| dashboard_reader.dfy | DashboardReader | `readDashboard` |
| lwc_reader.dfy | LwcReader | `extractChartSettings`, `extractTypes`, `generateRevEng` |
| model.dfy | Model | chart and change records |
| reconciler.dfy | Reconciler | `compareCharts` |
| instructions.dfy | Instructions | `buildInstructions` and `generateInstructions` |
| patcher.dfy | Patcher | `parseChartSettings`, `serializeSettings`, `toPascal`, `updateJs` |
| html_patcher.dfy | MarkupPatcher | `updateHtml` |
| dynamic_charts.dfy | DynamicCharts | the component's selections, `getFilters`, its queries and `applySettings` |

## Model

| member | source | states |
|---|---|---|
| Naming.ToKebab | scripts/agents/dashboardReader.js:57-62 | The kebab id has no upper-case letter and no white space or underscore. |
| Naming.ToKebabIdempotent | scripts/agents/changeRequestGenerator.js:16-21 | Normalising an id that is already normalised changes nothing, so keys built from kebab ids are stable. |
| Naming.HyphenateNoUpper | scripts/agents/dashboardReader.js:59 | Without upper-case letters, the camel-case pass leaves the text alone. |
| Naming.CollapseNoGaps | scripts/agents/dashboardReader.js:60 | Without white space or underscores, the gap pass leaves the text alone. |
| Naming.HyphenateAppend | scripts/agents/dashboardReader.js:59 | The camel-case pass on a concatenation is the pass on each part plus a hyphen exactly at a lower-to-upper seam. |
| Naming.ToKebabExample | scripts/agents/dashboardReader.js:57-62 | "ClimbsByNation" becomes "climbs-by-nation". |
| Naming.SameChartKey | scripts/agents/changeRequestGenerator.js:26-27 | The settings key "ClimbsByNation" and the dashboard id "climbs-by-nation" get the same comparison key. |
| StyleText.NormalizeType | scripts/agents/dashboardReader.js:97-102 | The type is "bar" or "box-and-whisker", and it is "box-and-whisker" exactly when the lower-cased hint contains "box". |
| StyleText.MapColorsTokens | scripts/agents/dashboardReader.js:89-95 | Mapping colours keeps the comma-separated token count. Each token becomes its hex code when it names a colour, and otherwise the token trimmed. |
| StyleText.SplitStyleClean | scripts/agents/dashboardReader.js:67-68 | No piece of a style string holds `;` or a line feed. |
| StyleText.LastAssignmentWins | scripts/agents/dashboardReader.js:69-74 | A key's value is the one its last assigning piece gives. |
| StyleText.FoldKeysNormalised | scripts/agents/dashboardReader.js:73 | Every metadata key is non-empty and lower-case. |
| StyleText.ColonPiece | scripts/agents/dashboardReader.js:70-72 | With a colon, the key is the trimmed text before the first colon. The value is the trimmed text between the first and second colons. |
| StyleText.ColonOnly | scripts/agents/dashboardReader.js:70-72 | A single colon separates a trimmed key from a trimmed value. |
| StyleText.EqualsPiece | scripts/agents/dashboardReader.js:70-72 | Without a colon, `=` separates key and value. |
| StyleText.ParseStyleString | scripts/agents/dashboardReader.js:64-76 | The loop builds the metadata the pieces assign in turn. Its keys are non-empty and lower-case. |
| StyleText.ParseTextWidget | scripts/agents/dashboardReader.js:78-87 | The result is null exactly when the widget has no rich-text array. Otherwise it is the metadata of the joined inserts. |
| Saql.ClauseCount | scripts/agents/dashboardReader.js:104-149 | The SAQL has three clauses, plus one each for a filter, an order and a limit when the query has them. It starts with the load line and ends with the limit, else the order, else the foreach. |
| Saql.SaqlLines | scripts/agents/dashboardReader.js:104-149 | When no spliced value holds a line feed, splitting the SAQL text on line feeds gives back exactly its clauses. |
| Saql.QueryToSaql | scripts/agents/dashboardReader.js:104-149 | The method builds the specified text. It fails exactly when the query has no source. |
| Ledger.FreshRecordsUnseen | scripts/agents/dashboardReader.js:48-54 | A key is recorded exactly when it is in the metadata and not yet seen. Each key is recorded once. |
| Ledger.AppendEntries | scripts/agents/dashboardReader.js:43-55 | The file gains one "key - description" line per fresh key. It exists afterwards iff it existed or something was recorded. |
| Ledger.StyleLedger.constructor | scripts/agents/dashboardReader.js:43-47 | The ledger starts with the given path, existence flag and content. |
| Ledger.StyleLedger.Record | scripts/agents/dashboardReader.js:43-55 | With no ledger configured nothing changes. Otherwise the content is only appended to, with the fresh keys' lines. The new state is the specified recording of the metadata. |
| Ledger.Recorded | scripts/agents/dashboardReader.js:43-55 | Recording one metadata only appends to the content. It changes nothing when no ledger is configured or no key is fresh. |
| Ledger.RecordedAll | scripts/agents/dashboardReader.js:43-55 | Recording a sequence of metadata in turn only appends, and changes nothing when no ledger is configured. |
| Ledger.RecordedAllAppend | scripts/agents/dashboardReader.js:43-55 | Recording two sequences of metadata one after the other is recording their concatenation. |
| LayoutSort.InsertSorted | scripts/agents/dashboardReader.js:186 | Inserting into a sorted layout keeps it sorted and adds exactly one entry. |
| LayoutSort.SortLayoutCorrect | scripts/agents/dashboardReader.js:186 | The sorted layout is ordered by row, then column, and is a permutation of the input. |
| LayoutSort.SortLayoutStable | scripts/agents/dashboardReader.js:186 | Entries in the same grid slot keep their relative order (the sort is stable). |
| DashboardReader.TitleOf | scripts/agents/dashboardReader.js:199-202 | A found title is never empty. |
| DashboardReader.ResolveQuery | scripts/agents/dashboardReader.js:221-231 | A found raw query is never empty. |
| DashboardReader.RawQuery | scripts/agents/dashboardReader.js:224-231 | The method picks `saql`, then the inline step's query, then the named step's query, as specified. |
| DashboardReader.FieldMappingsIdentity | scripts/agents/dashboardReader.js:238-242 | Each plot and dimension-axis name maps to itself. Nothing else is mapped. |
| DashboardReader.StyleFieldsLookup | scripts/agents/dashboardReader.js:244-259 | `seriesColors` is the mapped colours when `colors` is truthy. `effects` is ["shadow"] exactly when a shadow is requested. |
| DashboardReader.BuildChart | scripts/agents/dashboardReader.js:261-269 | The id is the kebab form of the widget title. The dashboard is the one being read. The type is bar or box-and-whisker. The title is the metadata title when truthy, else the widget title. |
| DashboardReader.VisitSpec | scripts/agents/dashboardReader.js:195-270 | A slot is skipped exactly when it is not a chart widget. An emitted chart consumes at most the next slot, and only a non-chart one. It consumes that slot exactly when the slot is a text companion in the same row. Emitted charts are complete and well formed. A stop writes nothing. |
| DashboardReader.EmittedChartMeta | scripts/agents/dashboardReader.js:203-265 | An emitted chart's title and style come from the companion text's metadata when that is non-empty, and otherwise from the subtitle's style string. |
| DashboardReader.Plan | scripts/agents/dashboardReader.js:195-270 | The read visits every slot of the sorted layout in turn. Every step that does not end the read moves forward. |
| DashboardReader.RunOnePerChart | scripts/agents/dashboardReader.js:195-270 | A completed run from any slot appends one chart per chart slot still ahead to the charts already emitted. |
| DashboardReader.RunEmitsEveryChart | scripts/agents/dashboardReader.js:195-270 | In a completed run, the step of every chart slot ahead emits a chart. |
| DashboardReader.RunChartsEmitted | scripts/agents/dashboardReader.js:261-269 | Every chart of a completed run was emitted before or is carried by one of the steps. |
| DashboardReader.ReadOnePerChartWidget | scripts/agents/dashboardReader.js:193-276 | A completed read writes exactly one chart per chart widget of the sorted layout. |
| DashboardReader.ReadWrittenComplete | scripts/agents/dashboardReader.js:232 | A read writes charts only when every chart widget has a title and a query. |
| DashboardReader.ReadChartsWellFormed | scripts/agents/dashboardReader.js:261-269 | Every written chart belongs to the dashboard read and has a kebab-case id. |
| DashboardReader.ReadMeta | scripts/agents/dashboardReader.js:203-219 | The metadata step reads the companion text or the subtitle, consumes the companion slot exactly when there is one, and records each metadata it reads in the ledger. |
| DashboardReader.VisitSlot | scripts/agents/dashboardReader.js:196-269 | One loop iteration computes the specified step. The ledger's new state is the recording of the metadata that slot reads. |
| DashboardReader.ReadDashboard | scripts/agents/dashboardReader.js:151-277 | The method returns the specified outcome, including the two error cases (name missing, error dashboard). The ledger's new state is the recording, in order, of every metadata the read meets up to the stop. |
| BraceScan.SpanClose | scripts/agents/lwcReader.js:17-30 | The scan ends one past the brace where the depth first returns to zero, or at the end of the text. |
| BraceScan.ClosesAtUnique | scripts/agents/lwcReader.js:17-30 | That closing position is unique. |
| BraceScan.ScanSpan | scripts/agents/lwcReader.js:17-30 | The scanning loop computes that position. |
| LwcReader.SettingsSpan | scripts/agents/lwcReader.js:7-31 | There is no span exactly when the marker or a following `{` is missing. Otherwise the span starts at the first `{` after the marker and ends where the braces close. |
| LwcReader.NoLiteralNoSettings | scripts/agents/lwcReader.js:9-16 | A missing marker or brace gives the empty settings object. |
| LwcReader.ExtractChartSettings | scripts/agents/lwcReader.js:7-34 | The method computes the specified settings, or the evaluation error. |
| LwcReader.CallMatches | scripts/agents/lwcReader.js:37 | An `initChart` call written as the component writes it is matched, and the match recovers its selector, option and name. |
| LwcReader.TypeFor | scripts/agents/lwcReader.js:43-46 | The type is bar or box-and-whisker, and box-and-whisker exactly for `chartBoxOptions`. |
| LwcReader.LaterCallWins | scripts/agents/lwcReader.js:40-47 | Each chart name gets the type of the last call that names it. A name no call mentions has no type. |
| LwcReader.TypesSpecUnique | scripts/agents/lwcReader.js:38-48 | Each chart name appears once in the types. |
| LwcReader.ExtractTypes | scripts/agents/lwcReader.js:36-49 | The `exec` loop and the mapping loop compute the specified types. |
| LwcReader.RevEngChart | scripts/agents/lwcReader.js:68-85 | The record fails exactly for a null entry or truthy non-array colours. Otherwise it carries the key as id, the found type or bar, no SAQL, and the entry's dashboard, title and field mappings. |
| LwcReader.RevEngStyleFields | scripts/agents/lwcReader.js:69-76 | The style always has font "default". It has colours joined with commas iff they are truthy, and effects iff they are truthy. |
| LwcReader.RevEngCharts | scripts/agents/lwcReader.js:68-85 | One record per settings entry, in order. The map fails exactly when some entry's record fails. |
| LwcReader.RevEngOnePerKey | scripts/agents/lwcReader.js:65-85 | The charts are the settings keys, in key order. |
| LwcReader.GenerateRevEng | scripts/agents/lwcReader.js:51-93 | The method computes the specified chart list. |
| Reconciler.LastWithKey | scripts/agents/changeRequestGenerator.js:26-27 | The found chart is in the list under that key. There is none exactly when no chart normalises to the key. |
| Reconciler.KeyedFind | scripts/agents/changeRequestGenerator.js:24-27 | The index keys each chart by its kebab id without repeats. Each key holds the last chart with that id. |
| Reconciler.DiffMismatches | scripts/agents/changeRequestGenerator.js:36-43 | There are no mismatches exactly when the charts agree on every compared property. Each mismatch names a property on which they differ, with the current and the expected value. Every property on which they differ has its mismatch. |
| Reconciler.DiffOverOne | scripts/agents/changeRequestGenerator.js:37-43 | One property yields one mismatch exactly when the charts differ on it, and none otherwise. |
| Reconciler.DiffOverAppend | scripts/agents/changeRequestGenerator.js:37-43 | The mismatches for a list of properties are those of its first part followed by those of the rest, so they follow the property order. |
| Reconciler.DiffEmpty | scripts/agents/changeRequestGenerator.js:36-44 | An update is emitted exactly when the charts differ on some compared property. |
| Reconciler.UpdateInstructions | scripts/agents/changeRequestGenerator.js:50 | There is one "Update id property" line per mismatch. |
| Reconciler.Reconcile | scripts/agents/changeRequestGenerator.js:23-63 | Every change targets dynamicCharts.js. Its action is add, update or remove. Exactly the updates carry mismatches, which are non-empty and come with one instruction each. All removes come after all adds and updates. |
| Reconciler.Classify | scripts/agents/changeRequestGenerator.js:31-60 | Per normalised id: one add when only the dashboard has it, one remove when only the component has it, one update when both have it and differ, nothing otherwise. |
| Reconciler.AddRemoveIff | scripts/agents/changeRequestGenerator.js:31-60 | The changes for an id are a single add iff only the dashboard has it, and a single remove iff only the component has it. |
| Reconciler.SwapSides | scripts/agents/changeRequestGenerator.js:31-60 | Swapping the two sides turns adds into removes and back. |
| Reconciler.DiffCharts | scripts/agents/changeRequestGenerator.js:36-43 | The property loop computes the specified mismatches. |
| Reconciler.BuildIndex | scripts/agents/changeRequestGenerator.js:24-27 | The `forEach`/`set` loop builds the specified index. |
| Reconciler.AddsPass | scripts/agents/changeRequestGenerator.js:31-54 | The pass over the dashboard's index emits the specified adds and updates, in index order. |
| Reconciler.RemovesPass | scripts/agents/changeRequestGenerator.js:56-60 | The pass over the component's index appends the specified removes after what is already there. |
| Reconciler.Position | scripts/agents/changeRequestGenerator.js:24-27 | A key's position in an index is within it, and where it is inside, the entry there holds that key. |
| Reconciler.PositionAbsent | scripts/agents/changeRequestGenerator.js:24-27 | A key not in the index has the position past its end. |
| Reconciler.AddsInOrder | scripts/agents/changeRequestGenerator.js:31-54 | Adds and updates target keys of the dashboard's index, in strictly increasing order of their key's insertion. |
| Reconciler.RemovesInOrder | scripts/agents/changeRequestGenerator.js:56-60 | Removes target keys of the component's index, in strictly increasing order of their key's insertion. |
| Reconciler.ReconcileOrder | scripts/agents/changeRequestGenerator.js:23-63 | The change list is the adds and updates, in the dashboard's key order, followed by the removes, in the component's key order. A change is a remove exactly when it lies past the first part. |
| Reconciler.CompareCharts | scripts/agents/changeRequestGenerator.js:23-63 | The two loops compute the specified change list. |
| Instructions.FormatPlainAsJson | scripts/changeRequestInterpreter.js:4-9 | On strings without quotes, backslashes or control characters, `formatValue` agrees with `JSON.stringify`. |
| Instructions.FormatDoesNotEscape | scripts/changeRequestInterpreter.js:4-9 | A double quote is not escaped, so `formatValue` differs from `JSON.stringify`. |
| Instructions.ColorArrayTokenCount | scripts/changeRequestInterpreter.js:11-13 | The quoted colour list has as many comma-separated tokens as its input. |
| Instructions.StyleLines | scripts/agents/changeRequestGenerator.js:88-113 | A style mismatch gives one line per wanted step: colours, font, drop shadow. |
| Instructions.StyleLinesShape | scripts/changeRequestInterpreter.js:34-58 | A style mismatch fails exactly on wanted colours that are not a string, or on current effects without `includes`. The colours line comes first when wanted. The shadow line is last exactly when wanted. |
| Instructions.NoDefaultFont | scripts/agents/changeRequestGenerator.js:100 | An expected font of "default" never yields a font line. |
| Instructions.MismatchLines | scripts/agents/changeRequestGenerator.js:82-121 | Only a style mismatch can fail. It gives at most three lines, and any other mismatch exactly one. |
| Instructions.ChangeLines | scripts/agents/changeRequestGenerator.js:80-135 | Adds and removes give two lines. An update with a mismatch list may fail. Anything else gives nothing. |
| Instructions.UpdateLineCount | scripts/agents/changeRequestGenerator.js:81-121 | An update gives at most three lines per mismatch, and exactly one per mismatch without style mismatches. |
| Instructions.NumberedAt | scripts/agents/changeRequestGenerator.js:66-71 | Line i carries step number from + i. |
| Instructions.EmptyOutput | scripts/agents/changeRequestGenerator.js:137 | No changes give a single newline. |
| Instructions.OutputLines | scripts/changeRequestInterpreter.js:79 | Split on line feeds, the output is the numbered lines and one empty trailing piece. |
| Instructions.RenderersAgree | scripts/changeRequestInterpreter.js:15-82 | When titles and fonts are plain strings, the builder and the interpreter give the same text or both fail. |
| Instructions.RenderersDifferOnMissingTitle | scripts/agents/changeRequestGenerator.js:84-87 | On a missing expected title the builder writes "undefined" in quotes; the interpreter writes it bare. |
| Instructions.Push | scripts/agents/changeRequestGenerator.js:68-71 | `addLine` appends the numbered lines and advances the step by their count. |
| Instructions.RenderUpdate | scripts/agents/changeRequestGenerator.js:81-121 | The mismatch loop pushes the specified lines, or stops at the first failure. |
| Instructions.RenderChange | scripts/agents/changeRequestGenerator.js:80-135 | One change pushes the specified lines. |
| Instructions.Render | scripts/agents/changeRequestGenerator.js:65-138 | The builder, and likewise the interpreter at scripts/changeRequestInterpreter.js:15-82, returns the specified text. |
| Patcher.StatementEnd | scripts/agents/syncCharts.js:34-35 | The end is one past the first `;` after the span, or the span's end when no `;` follows. |
| Patcher.LocateSettings | scripts/agents/syncCharts.js:13-37 | A missing marker throws. Otherwise the span is the one the component reader cuts out, the statement ends after the next `;`, and the settings are the evaluated literal. |
| Patcher.ParseChartSettings | scripts/agents/syncCharts.js:13-37 | The scan computes the specified location. |
| Patcher.UnquoteIdentifierKey | scripts/agents/syncCharts.js:41 | A quoted identifier before a colon loses its quotes. |
| Patcher.KeepNonIdentifierKey | scripts/agents/syncCharts.js:41 | A quoted key that is not an identifier keeps its opening quote. |
| Patcher.NewChartStaysQuoted | scripts/agents/syncCharts.js:41 | "new-chart" stays quoted. |
| Patcher.OnlyQuotesRemoved | scripts/agents/syncCharts.js:39-43 | Serialisation removes only double quotes and never grows the text. |
| Patcher.ToPascalScan | scripts/agents/syncCharts.js:45-50 | `toPascal` agrees with a character scan that capitalises after each `-` or `_`. |
| Patcher.ToPascalNoSeparators | scripts/agents/syncCharts.js:45-50 | The result holds no `-` or `_`. |
| Patcher.PascalTwoWords | scripts/agents/syncCharts.js:45-50 | Two words joined by `-` become both words capitalised. |
| Patcher.ToPascalExample | scripts/agents/syncCharts.js:45-50 | "new-chart" becomes "NewChart". |
| Patcher.SetProp | scripts/agents/syncCharts.js:67-72 | Assigning on an object entry sets that property. A non-object entry is left alone. |
| Patcher.ColorListRoundTrip | scripts/agents/syncCharts.js:71 | Joining the split colours with commas gives back the `seriesColors` text that the component reader compares. |
| Patcher.OutsideSpanUnchanged | scripts/agents/syncCharts.js:52-81 | The patch fails exactly when the literal cannot be located or a change throws. Otherwise the text outside the statement is kept, and the serialised settings and a `;` stand in its place. |
| Patcher.OtherTargetIgnored | scripts/agents/syncCharts.js:57 | A change for another target file leaves the settings alone. |
| Patcher.RemoveDeletes | scripts/agents/syncCharts.js:59-62 | A remove deletes its key and keeps every other entry. |
| Patcher.MergeKeepsOthers | scripts/agents/syncCharts.js:63-75 | Any other action stores the merged entry under its key and keeps every other entry. |
| Patcher.AddWithoutMismatches | scripts/agents/syncCharts.js:63-75 | An add without mismatches for a new key appends an empty entry. |
| Patcher.CopiedProperties | scripts/agents/syncCharts.js:66-69 | dashboard, title and fieldMappings mismatches copy the expected value. |
| Patcher.IgnoredProperties | scripts/agents/syncCharts.js:67-73 | type, saql and other mismatches are not applied. |
| Patcher.StyleMerge | scripts/agents/syncCharts.js:70-73 | Truthy `seriesColors` set `colors` to its split. Array `effects` are copied. Otherwise both stay. |
| Patcher.OnlyTargetMatters | scripts/agents/syncCharts.js:56-57 | Applying a change list is applying only its changes for dynamicCharts.js. |
| Patcher.MergeEntry | scripts/agents/syncCharts.js:65-74 | The mismatch loop computes the specified merge, or the first failure. |
| Patcher.ApplyOne | scripts/agents/syncCharts.js:56-76 | One change is applied as specified. |
| Patcher.UpdateJs | scripts/agents/syncCharts.js:52-81 | The method writes the specified text. |
| MarkupPatcher.SplitLines | scripts/agents/syncCharts.js:84 | The text splits into one line per `\n`-separated piece. |
| MarkupPatcher.SplitLinesJoin | scripts/agents/syncCharts.js:84-125 | Without carriage returns, splitting into lines and joining with `\n` gives the text back. |
| MarkupPatcher.FindNavStart | scripts/agents/syncCharts.js:85 | This is the first line holding `<ul` and `slds-list_dotted`, or -1. |
| MarkupPatcher.FindNavEnd | scripts/agents/syncCharts.js:86 | This is the first line after the list start that holds `</ul>`, or -1. |
| MarkupPatcher.LastIndexOf | scripts/agents/syncCharts.js:87 | This is the last line equal to the layout-item close, or -1. |
| MarkupPatcher.SpliceAt | scripts/agents/syncCharts.js:105-122 | A negative splice start counts from the end, and both ends clamp. |
| MarkupPatcher.InsertSplices | scripts/agents/syncCharts.js:105-122 | The inserted lines stand at the splice point, with the other lines in order around them. |
| MarkupPatcher.NavLines | scripts/agents/syncCharts.js:100-104 | The nav entry is a list item around the chart's link. |
| MarkupPatcher.BlockLines | scripts/agents/syncCharts.js:107-120 | The page block has 12 lines and holds the chart container and its `AO` companion. |
| MarkupPatcher.Keep | scripts/agents/syncCharts.js:92-97 | Kept lines come from the input and match none of the three removal patterns. |
| MarkupPatcher.KeepComplete | scripts/agents/syncCharts.js:92-97 | Every line that matches no pattern is kept. |
| MarkupPatcher.KeepAppend | scripts/agents/syncCharts.js:92-97 | Filtering respects concatenation, so kept lines stay in order. |
| MarkupPatcher.ChangeSize | scripts/agents/syncCharts.js:88-123 | An add grows the file by 15 lines. A remove never grows it. Anything else leaves it alone. |
| MarkupPatcher.LineCount | scripts/agents/syncCharts.js:88-124 | The file grows by at most 15 lines per add, and by exactly that when there are no removes. |
| MarkupPatcher.IgnoredChanges | scripts/agents/syncCharts.js:89 | Changes for other files, and actions other than add and remove, leave the page alone. |
| MarkupPatcher.UnchangedText | scripts/agents/syncCharts.js:83-126 | A file without carriage returns is rewritten unchanged when no change applies. |
| MarkupPatcher.RemoveFilters | scripts/agents/syncCharts.js:91-97 | A remove deletes exactly the matching lines and keeps both offsets. |
| MarkupPatcher.LayoutOffsetDrifts | scripts/agents/syncCharts.js:105-122 | As written, with the list above the layout item, the block is inserted at the old layout offset, although the nav entry has pushed the anchor down. Afterwards the anchor sits the nav entry's length below the recorded offset. |
| MarkupPatcher.NavOffsetDrifts | scripts/agents/syncCharts.js:105-122 | As written, with the layout item before the list, the recorded list offset ends up the block's length short of the list close. |
| MarkupPatcher.ExampleOpens | scripts/agents/syncCharts.js:85-87 | On the three-line file, the list close is found on line 1 and the layout anchor on line 2. |
| MarkupPatcher.BlockInsideNavItem | scripts/agents/syncCharts.js:98-123 | As written, an add on the three-line file puts the chart block between the new `<li>` and its link. The recorded offsets no longer point at their anchors. |
| MarkupPatcher.SplicedFixedAnchored | scripts/agents/syncCharts.js:98-123 | The corrected splices keep both anchors and put each insertion directly above its anchor. |
| MarkupPatcher.AddChartFixedAnchored | scripts/agents/syncCharts.js:98-123 | The corrected add keeps both anchors, with the nav entry and the page block directly above them. |
| MarkupPatcher.KeepLines | scripts/agents/syncCharts.js:92-97 | The filter loop computes the kept lines. |
| MarkupPatcher.UpdateHtml | scripts/agents/syncCharts.js:83-126 | The method writes the specified text, with the line list and both offsets updated change by change. |
| DynamicCharts.Clear | force-app/main/default/lwc/dynamicCharts/dynamicCharts.js:436-448 | Clearing a dimension empties its selection. |
| DynamicCharts.ClausesShape | force-app/main/default/lwc/dynamicCharts/dynamicCharts.js:429-451 | There is one clause per active dimension, each the filter for an active dimension. |
| DynamicCharts.ClauseFrame | force-app/main/default/lwc/dynamicCharts/dynamicCharts.js:438-448 | Every clause starts with `q = filter q by '<field>' ` and ends with `;` and a newline. |
| DynamicCharts.NoSelectionsNoFilters | force-app/main/default/lwc/dynamicCharts/dynamicCharts.js:429-451 | With nothing selected, the filter text is empty whatever the options. |
| DynamicCharts.ExcludeIsClearing | force-app/main/default/lwc/dynamicCharts/dynamicCharts.js:433-447 | Excluding a dimension has the same effect as emptying its selection. |
| DynamicCharts.ClearingDropsClause | force-app/main/default/lwc/dynamicCharts/dynamicCharts.js:436-448 | Clearing a dimension drops its clause and changes no other. |
| DynamicCharts.InversionOnlyHostNation | force-app/main/default/lwc/dynamicCharts/dynamicCharts.js:431-442 | Without host or nation selections, the inversion flags change nothing. |
| DynamicCharts.SeasonAndSkiNeverInverted | force-app/main/default/lwc/dynamicCharts/dynamicCharts.js:444-448 | The season and ski clauses are never negated. |
| DynamicCharts.OptionQueryIgnoresOwnSelection | force-app/main/default/lwc/dynamicCharts/dynamicCharts.js:88-122 | A picker's option query never depends on that picker's own selection. |
| DynamicCharts.ChartQueryShape | force-app/main/default/lwc/dynamicCharts/dynamicCharts.js:155-242 | There is a chart query exactly when dataset ids are known. It starts with the load line, followed by the filter text (host and nation inverted for `AO`), and ends with the 20-row limit. |
| DynamicCharts.CompanionSameWithoutInversion | force-app/main/default/lwc/dynamicCharts/dynamicCharts.js:155-242 | Without host or nation selections, a chart and its `AO` companion run the same query. |
| DynamicCharts.FilterTextParts | force-app/main/default/lwc/dynamicCharts/dynamicCharts.js:435-450 | The filter text is the host, nation, season and ski clauses, in that order, each present only when active. |
| DynamicCharts.Component.constructor | force-app/main/default/lwc/dynamicCharts/dynamicCharts.js:9-55 | A fresh component has nothing selected, no dataset ids, and the given settings. |
| DynamicCharts.Component.HandleHostChange | force-app/main/default/lwc/dynamicCharts/dynamicCharts.js:406-408 | Only the host selection changes, to the picked value. |
| DynamicCharts.Component.HandleNationChange | force-app/main/default/lwc/dynamicCharts/dynamicCharts.js:409-411 | Only the nation selection changes, to the picked value. |
| DynamicCharts.Component.HandleSeasonChange | force-app/main/default/lwc/dynamicCharts/dynamicCharts.js:412-414 | Only the season selection changes, to the picked value. |
| DynamicCharts.Component.HandleSkiChange | force-app/main/default/lwc/dynamicCharts/dynamicCharts.js:415-417 | Only the ski selection changes, to the picked value. |
| DynamicCharts.Component.FilterBlock | force-app/main/default/lwc/dynamicCharts/dynamicCharts.js:436-449 | One `saql +=` block yields the dimension's clause when it is active, and nothing otherwise. |
| DynamicCharts.Component.GetFilters | force-app/main/default/lwc/dynamicCharts/dynamicCharts.js:429-451 | The method returns the specified filter text for the current selections. |
| DynamicCharts.Component.ApplySettings | force-app/main/default/lwc/dynamicCharts/dynamicCharts.js:57-67 | A truthy settings title becomes `title: {text}` and truthy colours are copied. Otherwise the options keep their own. An unknown chart id returns the options unchanged. |
| DynamicCharts.Component.ApplySettingsKeepsOthers | force-app/main/default/lwc/dynamicCharts/dynamicCharts.js:59 | Every option other than title and colours passes through the copy unchanged. |

## Left out

- File and process I/O is not modelled: reading and writing files, `execSync`/`curl` for option descriptions, `console` output and the command-line parsing. Parsed inputs are parameters instead. The ledger's option description is a function parameter.
- `new Function` and `vm.runInNewContext` are not modelled as general JavaScript evaluation. The settings text is read by a parser for object literals, covering strings, integers, `true`/`false`/`null`, arrays, nested objects, and bare or quoted keys. Anything else counts as an evaluation error.
- Patcher.LocateSettings: when no `{` follows the marker, the source scans from index -1 and evaluates text that makes no sense. The model treats this case as an error.
- Patcher.MergeMismatch: an `undefined` expected value assigned to an entry property is modelled as removing that key. For that one assignment the `JSON.stringify` output is the same. The two differ once a later mismatch in the same update assigns the key again: JavaScript rewrites the key where it already stands, while the model re-appends it at the end. Patcher.MergeAll and Patcher.UpdateJs then write the entry's keys in a different order. The mismatches `[title without expectedValue, title = "b"]` on `{title: "a", dashboard: "d"}` show it. A change list built by the reconciler never names a property twice.
- Patcher.SetProp: a property assigned on a primitive entry is dropped, as JavaScript does. An array entry is also left alone, although JavaScript would attach the property to the array.
- Case mapping covers ASCII only. `\s` and `trim` use the JavaScript white-space set.
- Object keys keep insertion order. The JavaScript rule that integer-like keys come first is not modelled.
- Numbers are integers. Floating point is not modelled.
- Error messages of thrown TypeErrors are approximations of the engine's wording. Only where an error occurs is faithful.
- `String.prototype.replace` special `$` patterns in replacement text are not modelled: the dataset id and filter values are inserted literally.
- Saql.OrderClause: the order template is filled by two chained `replace` calls (scripts/agents/dashboardReader.js:139-140), modelled as concatenation. They differ when the order field's name itself contains `<orderDirection>`: the second call then replaces that text inside the name and leaves the template's own placeholder.
- DashboardReader.ReadDashboard: a first grid layout whose `pages` is an empty array makes `pages[0].widgets` throw a TypeError (scripts/agents/dashboardReader.js:178-183). The model takes the first page's widget list as a given field of the dashboard, so this error is not modelled.
- Prototype keys such as `constructor` are not treated specially in object lookups.
- Reconciler.DiffMismatches: `JSON.stringify(a) !== JSON.stringify(b)` is modelled as inequality of ordered values. The two agree except where distinct values print alike.
- The regular expression `\s*` in the `initChart` pattern spans line breaks. This is modelled with the JavaScript white-space set.
- The component's wire adapters (`onGetDataset`, the query handlers), `initChart`, `renderedCallback`, `filtersUpdated` and the ApexCharts rendering are not modelled. `datasetIds` is a plain field of the component.
- DynamicCharts.Component: the ski selection is its text. The initial `[]` is modelled as the empty string, which has the same `length`.
- DynamicCharts.Component.constructor: the `chartSettings` literal is a constructor parameter rather than the three fixed entries.
- MarkupPatcher.RemoveChart: a remove matches the raw chart id, while an add writes `toPascal(id)`. The lines of a removed page's wrapper (the card, layout and cell tags) stay behind. The model keeps both behaviours as written.
- LayoutSort: the engine's in-place sort is modelled by a stable insertion sort function, proved sorted, a permutation and stable.

## Findings

| source | as written | input that shows it | evidently intended | confidence | as-written member | corrected member |
|---|---|---|---|---|---|---|
| scripts/agents/syncCharts.js:105-122 | After the nav splice, `ulEnd` advances by the nav length but `layoutEnd` does not, although it lies below the splice. The block is spliced at the stale `layoutEnd`. | The lines `<ul class="slds-list_dotted">`, `</ul>`, `</lightning-layout-item>` and one add. The 12-line page block lands between the new `<li>` and its link, and the recorded offsets no longer point at their anchors. | Each splice also shifts the other offset when it lands at or above it. The nav entry then sits right above `</ul>` and the page block right above `</lightning-layout-item>`. | not executed | MarkupPatcher.BlockInsideNavItem | MarkupPatcher.AddChartFixedAnchored |

The drift is general: MarkupPatcher.LayoutOffsetDrifts shows that, with the list
above the layout item (the order in which the patcher's anchors are laid out), every add misplaces the block
by the nav entry's three lines. MarkupPatcher.SplicedFixedAnchored proves the
corrected splices for any anchored page. MarkupPatcher.UpdateHtml models the loop
as written.
