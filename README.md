# report-writer: the control-break engine, modelled in Dafny

report-writer renders banded reports from a sequence of records.

A report is configured with one `GroupBuilder` per grouping level. Each builder holds:
- a key expression: a field name, or a function of the record;
- a list of aggregate definitions (sum, avg, count, min, max over a field, under an alias);
- a list of named calculations.

`AbstractReport::render` makes one control-break pass over the records:
- It emits a `reportHeader` band.
- For every record, it computes the key vector and compares it with the previous record's vector. It then emits `groupFooter` bands for the groups that break and `groupHeader` bands for the groups that open. It feeds the record into every state in the group-state map and emits a `detail` band. That map can still hold states of groups whose footer was emitted under another key; see below.
- At the end it closes the groups still on the stack, then emits `summary` and `reportFooter`.

Each group band carries a context built from its group state:
- `firstRecord`, `lastRecord` and `recordCount`;
- one entry per aggregate alias;
- the calculation results.

This project models that engine, the `Aggregate` accumulator, and the two builders. It proves what the engine emits.

The model keeps the PHP program's form:
- `AbstractReport`, `Aggregate`, `GroupBuilder` and `ReportBuilder` are classes. Their fields are updated in place, and their methods put `modifies` on them.
  - `Reports.Report.Render` is an imperative loop over the records. It is proved equal to the pure pass `ControlBreak.RenderSpec`.
  - Every helper method (`ComputeGroupKeys`, `DetectGroupChanges`, `InitializeGroupState`, `BuildGroupContext`, the close loop, the open loop, the accumulate loop) is likewise proved equal to a pure function.
- The band sink is the list `renderedBands` that the test renderer `AbstractTestReport` keeps. A band's name is `type` or `type_level`.
- Records are maps from field names to values: `null`, booleans, integers, strings and objects. Float field values are not modelled (see "## Left out").
- The PHP conversions the engine depends on are written out:
  - a missing field reads as `null`;
  - `(string)` gives `""` for `null` and `"1"` for `true`;
  - `(float)` of a string reads its numeric prefix;
  - an object is keyed by a 32-character identity token.
- The composite key of a group is the real `'|'`-join of the key prefix, so keys that contain `'|'` can collide (`ChangeFacts.JoinCollision`).
- The group stack and the group states are fields of the report. They persist from one `render` call to the next, as in the PHP.

The close loop is modelled as written. `array_reverse` renumbers the changed levels, so the loop variable `$level` is the position in the reversed list, not the level that changed (src/Report/AbstractReport.php:75-79):
- With one grouping level the two coincide, and the whole single-level behaviour is proved (`SingleLevel.SingleLevelRender`).
- With two levels they do not:
  - When only the inner key changes, the footer emitted is `groupFooter_0` and shows the outer group's state (`MultiLevel.InnerBreakBands`).
  - It then unsets the outer group's state, because position 0 gives the composite key of level 0 (src/Report/AbstractReport.php:79).
  - The old inner state `outer|inner` stays in the map and goes on being fed, next to the newly opened inner state (`MultiLevel.InnerBreakStates`).
  - While the outer key stays the same, the outer state does not come back (`MultiLevel.OuterStateStaysAbsent`). The footer that finally closes the outer group therefore shows the context of an absent state: null records, a count of 0 and no aggregate (`ContextFacts.AbsentContext`).
  - When only the outer key changes, the inner group is neither closed nor reopened (`MultiLevel.OuterBreakBands`).

The band order asserted by tests/Unit/Report/AbstractReport/MultiLevelGroupingTest.php:47-64 therefore disagrees with the code. The model follows the code. The `groupValue` entry that test reads at lines 151-152 is never built by the code, and it is not modelled either.

The first test of tests/Unit/Report/AbstractReport/SingleLevelGroupingTest.php (lines 34-38) passes the arguments of `sum` in the reverse order. Its band order and its record counts do not depend on that. The scenarios here use `sum('amount', 'sumAmount')`, as the second test does (lines 94-96).

## Model

| member | source | states |
|---|---|---|
| Values.IdentityToken | src/Report/AbstractReport.php:143 | the token that stands for `spl_object_hash` always has 32 characters |
| Values.NatStringParses | src/Report/Aggregate.php:37 | `(float)` of the decimal string of a natural number gives that number back |
| Values.IntKeyParses | src/Report/Aggregate.php:37 | an integer key, cast to a string and back to a float, is that integer |
| Values.DigitsValueOfNatToString | src/Report/AbstractReport.php:143 | reading the decimal digits of `(string)$n` gives `n` back |
| Aggregates.ParseKind | src/Report/Aggregate.php:11-15 | a type string is accepted exactly when it is one of the five type names, and it maps back to that name |
| Aggregates.Add | src/Report/Aggregate.php:31-53 | one `accumulate`: sum and avg add the sample to `value` and count it; count only counts; min changes only `min` and max only `max` |
| Aggregates.FeedAllState | src/Report/Aggregate.php:31-53 | after accumulating a list, `count` is its length for sum/avg/count, `value` is the total for sum/avg, and min/max are the least/greatest sample (unset when the list is empty) |
| Aggregates.SumValue | src/Report/Aggregate.php:39-66 | SUM's value is the sum of the coerced field values of all accumulated records |
| Aggregates.AvgValue | src/Report/Aggregate.php:40-68 | AVG is the total divided by the number of records, and 0 with no record |
| Aggregates.CountValue | src/Report/Aggregate.php:45-70 | COUNT equals the number of records accumulated, whatever their field values |
| Aggregates.MinValue | src/Report/Aggregate.php:48-72 | MIN is the least coerced value seen, and 0 before any record |
| Aggregates.MaxValue | src/Report/Aggregate.php:51-74 | MAX is the greatest coerced value seen, and 0 before any record |
| Aggregates.LeastIsMinimum | src/Report/Aggregate.php:49 | the running minimum is at most every sample and equals one of them |
| Aggregates.GreatestIsMaximum | src/Report/Aggregate.php:52 | the running maximum is at least every sample and equals one of them |
| Aggregates.MissingFieldIsZero | src/Report/Aggregate.php:33-37 | a record without the field is accumulated exactly as if the field held 0 |
| Aggregates.Aggregate.constructor | src/Report/Aggregate.php:20-29 | any type string is accepted; the value is 0, the count 0, min and max unset |
| Aggregates.Aggregate.Accumulate | src/Report/Aggregate.php:31-57 | an unknown type fails with `InvalidArgumentException` and changes nothing; a known type steps the fields exactly as `Add` |
| Aggregates.Aggregate.GetValue | src/Report/Aggregate.php:62-78 | an unknown type fails with `LogicException`; a known type returns `ValueOf` of the fields |
| GroupBuilders.GroupBuilder.constructor | src/Report/Builder/GroupBuilder.php:16-20 | a new builder holds the expression and no aggregates or calculations |
| GroupBuilders.GroupBuilder.GetExpression | src/Report/Builder/GroupBuilder.php:25-28 | returns the constructor's expression unchanged |
| GroupBuilders.GroupBuilder.Sum | src/Report/Builder/GroupBuilder.php:30-35 | appends one `sum` definition with the given field and alias; the calculations stay unchanged; returns the same builder |
| GroupBuilders.GroupBuilder.Avg | src/Report/Builder/GroupBuilder.php:37-42 | appends one `avg` definition at the end; the rest stays unchanged; returns the same builder |
| GroupBuilders.GroupBuilder.Count | src/Report/Builder/GroupBuilder.php:44-49 | appends one `count` definition at the end; the rest stays unchanged; returns the same builder |
| GroupBuilders.GroupBuilder.Min | src/Report/Builder/GroupBuilder.php:51-56 | appends one `min` definition at the end; the rest stays unchanged; returns the same builder |
| GroupBuilders.GroupBuilder.Max | src/Report/Builder/GroupBuilder.php:58-63 | appends one `max` definition at the end; the rest stays unchanged; returns the same builder |
| GroupBuilders.GroupBuilder.Calculate | src/Report/Builder/GroupBuilder.php:65-70 | appends `{as, callback}` to the calculations; the aggregates stay unchanged; returns the same builder |
| GroupBuilders.GroupBuilder.GetAggregates | src/Report/Builder/GroupBuilder.php:72-75 | returns the definitions in call order, duplicates kept |
| GroupBuilders.GroupBuilder.GetCalculations | src/Report/Builder/GroupBuilder.php:77-80 | returns the calculations in call order |
| ReportBuilders.ReportBuilder.constructor | src/Report/Builder/ReportBuilder.php:14-17 | a new builder has the report and no groups |
| ReportBuilders.ReportBuilder.GroupBy | src/Report/Builder/ReportBuilder.php:19-25 | appends one new group builder holding the expression; the group count grows by one and earlier groups stay unchanged |
| ReportBuilders.ReportBuilder.CheckGroupCount | src/Report/Builder/ReportBuilder.php:87-94 | fails with `ReportWriterException` and the exact message exactly when there is no group |
| ReportBuilders.ReportBuilder.Sum | src/Report/Builder/ReportBuilder.php:27-34 | with no group, fails and changes nothing; otherwise appends `(field, as)` as a sum to the last group only and returns the builder |
| ReportBuilders.ReportBuilder.Avg | src/Report/Builder/ReportBuilder.php:36-43 | the same for avg |
| ReportBuilders.ReportBuilder.Count | src/Report/Builder/ReportBuilder.php:45-52 | the same for count |
| ReportBuilders.ReportBuilder.Min | src/Report/Builder/ReportBuilder.php:54-61 | the same for min |
| ReportBuilders.ReportBuilder.Max | src/Report/Builder/ReportBuilder.php:63-70 | the same for max |
| ReportBuilders.ReportBuilder.Calculate | src/Report/Builder/ReportBuilder.php:72-78 | appends the calculation to the last group only |
| ReportBuilders.ReportBuilder.Build | src/Report/Builder/ReportBuilder.php:80-85 | hands the groups, in `groupBy` order, to the report and returns that same report |
| ControlBreak.GroupKeys | src/Report/AbstractReport.php:137-146 | one key per configured level |
| ControlBreak.GroupKeysAt | src/Report/AbstractReport.php:140-144 | key `i` is the key of builder `i`, in builder order |
| ControlBreak.DetectChangesBounded | src/Report/AbstractReport.php:148-163 | every change names a level of the current vector and carries that level's new key |
| ControlBreak.CloseGroups | src/Report/AbstractReport.php:74-80 | the close loop does not change the key stack |
| ControlBreak.OpenGroups | src/Report/AbstractReport.php:84-93 | the open loop does not change the key stack |
| ControlBreak.FinalFooters | src/Report/AbstractReport.php:123-128 | the final footers leave the stack and the group states unchanged |
| ChangeFacts.MissingFieldKey | src/Report/AbstractReport.php:142-143 | a missing field gives the key `""` |
| ChangeFacts.ObjectKey | src/Report/AbstractReport.php:143 | an object gives its 32-character identity token |
| ChangeFacts.DetectChangesCommon | src/Report/AbstractReport.php:152-158 | below the shorter length, a level is reported exactly when its keys differ (both directions) |
| ChangeFacts.DetectChangesTail | src/Report/AbstractReport.php:159-161 | every level of the current vector beyond the previous vector's length is reported |
| ChangeFacts.DetectChangesAscending | src/Report/AbstractReport.php:148-163 | the changes are listed by strictly ascending level |
| ChangeFacts.DetectChangesFromNothing | src/Report/AbstractReport.php:159-161 | against an empty previous vector every level is reported, in order, with its key |
| ChangeFacts.PrefixKeysDistinct | src/Report/AbstractReport.php:76-85 | the levels of one key vector never share a composite key |
| ChangeFacts.JoinCollision | src/Report/AbstractReport.php:76-85 | a one-level key that contains the separator can share its composite key with a two-level prefix |
| ContextFacts.InitAggregatesKeys | src/Report/AbstractReport.php:170-172 | a new state has one accumulator per declared alias |
| ContextFacts.InitAggregatesLastWins | src/Report/AbstractReport.php:170-172 | when aliases repeat, the last definition supplies the accumulator |
| ContextFacts.RunCalculationsKeeps | src/Report/AbstractReport.php:202-204 | a calculation touches only the entry it is named after |
| ContextFacts.CalculationSeesEarlier | src/Report/AbstractReport.php:202-204 | calculations run in declaration order and a later one sees an earlier one's result |
| ContextFacts.CalculationSeesState | src/Report/AbstractReport.php:203 | in `$state + $context` the state's entries win |
| ContextFacts.ContextAggregate | src/Report/AbstractReport.php:197-200 | each alias no calculation reuses holds the accumulator's `getValue` |
| ContextFacts.ContextBase | src/Report/AbstractReport.php:191-195 | `firstRecord`, `lastRecord` and `recordCount` come from the state |
| ContextFacts.AbsentContext | src/Report/AbstractReport.php:185-195 | an absent key yields null records, a zero count and no other entry |
| ContextFacts.OpenedContext | src/Report/AbstractReport.php:84-93 | a group just opened shows its first record, a null last record, a zero count and zero for each aggregate |
| ContextFacts.FreshAccumulators | src/Report/Aggregate.php:20-74 | every accumulator of a fresh state reads 0 |
| EngineFacts.CloseGroupsShape | src/Report/AbstractReport.php:74-80 | the close loop emits footer `j` at level `j`, keyed by the first `j+1` previous keys, and removes those keys' states |
| EngineFacts.ClosingFooterOwnState | src/Report/AbstractReport.php:76-79 | each closing footer reads its own state, not disturbed by the earlier removals |
| EngineFacts.OpenGroupsShape | src/Report/AbstractReport.php:84-93 | the open loop emits one header per change, at that change's level, in order |
| EngineFacts.OpenGroupsKeys | src/Report/AbstractReport.php:84-86 | the open loop writes one state under the composite key of each changed level and keeps every other state |
| EngineFacts.OpenGroupsStates | src/Report/AbstractReport.php:165-181 | each opened state is fresh, with the record as its first record |
| EngineFacts.FinalFootersShape | src/Report/AbstractReport.php:123-128 | at the end, footers are emitted for levels from the deepest down to 0, with no removal |
| EngineFacts.StepShape | src/Report/AbstractReport.php:69-115 | one record appends its footers, then its headers, then exactly one detail band carrying the record |
| EngineFacts.StepCounts | src/Report/AbstractReport.php:74-112 | one record adds one detail band and as many footers and headers as changes |
| EngineFacts.NoBreakStep | src/Report/AbstractReport.php:69-112 | a record with an unchanged key vector emits only its detail band |
| EngineFacts.FirstStep | src/Report/AbstractReport.php:74-93 | on the first record no footer is emitted and headers open every level in ascending order |
| EngineFacts.RecordLoopStack | src/Report/AbstractReport.php:96-115 | after the loop, the stack holds the last record's keys |
| EngineFacts.RenderFrame | src/Report/AbstractReport.php:65-132 | the band stream starts with `reportHeader` and ends with `summary`, `reportFooter` |
| EngineFacts.RenderBalanced | src/Report/AbstractReport.php:69-128 | on a non-empty input, one detail band per record, and as many footers as headers |
| EngineFacts.RenderNothing | src/Report/AbstractReport.php:65-132 | with no record, the report header, one footer per level of the stack left by an earlier pass (from the deepest level down to 0), then summary and footer; with an empty stack, exactly the three report bands |
| EngineFacts.RenderWithoutGroups | src/Report/AbstractReport.php:69-132 | with no group builder and either an empty stack or at least one record, the stream is the report header, one detail per record, summary and footer |
| SingleLevel.RunStart | src/Report/AbstractReport.php:69-93 | the run containing record `i` starts at a break, no record after it up to `i` breaks, and all of them share record `i`'s key |
| SingleLevel.FeedRunState | src/Report/AbstractReport.php:100-109 | feeding records one by one appends each to `records`, sets `lastRecord`, and keeps `firstRecord` and the calculations |
| SingleLevel.RunStateNext | src/Report/AbstractReport.php:84-109 | a group's state after a record is a fresh group fed the record at a break, and otherwise the old state fed once more |
| SingleLevel.SingleLevelRender | src/Report/AbstractReport.php:53-135 | with one level: `reportHeader`; per maximal run of equal keys, `groupHeader_0`, one detail per record and `groupFooter_0` showing that run's state; then `summary`, `reportFooter` |
| SingleLevel.RunFooterContext | src/Report/AbstractReport.php:183-195 | a run's footer shows the run's first and last record and its length as `recordCount` |
| SingleLevel.RunFooterAggregate | src/Report/AbstractReport.php:170-200 | a run's footer shows each aggregate accumulated over exactly that run |
| SingleLevel.RunHeaderContext | tests/Unit/Report/AbstractReport/SingleLevelGroupingTest.php:64-66 | a run's header shows its first record, a null last record and a zero count |
| MultiLevel.InnerChange | src/Report/AbstractReport.php:148-163 | with two levels, changing the inner key alone reports level 1 only |
| MultiLevel.OuterChange | src/Report/AbstractReport.php:148-163 | changing the outer key alone reports level 0 only |
| MultiLevel.InnerBreakBands | src/Report/AbstractReport.php:74-93 | an inner break emits `groupFooter_0` with the outer group's state, then one `groupHeader_1` |
| MultiLevel.InnerKeysDiffer | src/Report/AbstractReport.php:76-85 | two-level vectors sharing the outer key but not the inner one have different inner composite keys |
| MultiLevel.InnerBreakStates | src/Report/AbstractReport.php:74-109 | after an inner break the outer state is gone, the new inner state holds the record, and the old inner state is kept and fed the record |
| MultiLevel.OuterStateStaysAbsent | src/Report/AbstractReport.php:74-109 | an absent outer state stays absent for every record with the same outer key |
| MultiLevel.OuterBreakBands | src/Report/AbstractReport.php:74-93 | an outer break with the same inner key closes and reopens level 0 only |
| MultiLevel.BothBreakBands | src/Report/AbstractReport.php:74-80 | when both keys change, the outer group's footer (level 0) comes before the inner one's (level 1) |
| Reports.SpecsOf | src/Report/AbstractReport.php:35-40 | the report sees one group description per builder |
| Reports.SpecsOfAt | src/Report/AbstractReport.php:165-167 | level `i` is configured by builder `i`, in the order given to `setGroups` |
| Reports.Report.constructor | src/Report/AbstractReport.php:17-27 | a fresh report has no builders, an empty stack, no states and no bands |
| Reports.Report.SetGroups | src/Report/AbstractReport.php:35-40 | replaces the builders, changes no other state and returns the report |
| Reports.Report.RenderBand | tests/Unit/Report/AbstractTestReport.php:15-25 | the test renderer appends one band with its name and context |
| Reports.Report.ComputeGroupKeys | src/Report/AbstractReport.php:137-146 | the loop builds exactly `GroupKeys` and changes no state |
| Reports.Report.DetectGroupChanges | src/Report/AbstractReport.php:148-163 | the two loops build exactly `DetectChanges` |
| Reports.Report.InitializeGroupState | src/Report/AbstractReport.php:165-181 | writes a fresh state for the level's builder under the key and changes nothing else |
| Reports.Report.BuildGroupContext | src/Report/AbstractReport.php:183-207 | the loops build exactly `BuildContext` |
| Reports.Report.EmitGroupBand | src/Report/AbstractReport.php:77-78 | appends one group band at the level, carrying the context of the key, and changes no state |
| Reports.Report.CloseBreakingGroups | src/Report/AbstractReport.php:74-80 | the close loop moves the report to `CloseGroups` of its state |
| Reports.Report.OpenGroup | src/Report/AbstractReport.php:85-92 | one iteration writes a fresh state with the record as its first record, then emits its header (`OpenOne`) |
| Reports.Report.OpenChangedGroups | src/Report/AbstractReport.php:84-93 | the open loop moves the report to `OpenGroups` of its state |
| Reports.Report.AccumulateIntoStates | src/Report/AbstractReport.php:100-109 | every live state is fed the record |
| Reports.Report.FeedOne | src/Report/AbstractReport.php:101-106 | every aggregate of the state takes one `accumulate`, the record is appended and becomes the last record |
| Reports.Report.SetStack | src/Report/AbstractReport.php:96 | the stack becomes the current keys; states and bands stay unchanged |
| Reports.Report.ProcessRecord | src/Report/AbstractReport.php:70-115 | one loop iteration moves the report to `Step` and returns the record's keys |
| Reports.Report.ProcessRecords | src/Report/AbstractReport.php:69-121 | the record loop moves the report to `RecordLoop` |
| Reports.Report.CloseOpenGroups | src/Report/AbstractReport.php:123-128 | the final loop moves the report to `FinalFooters` |
| Reports.Report.Render | src/Report/AbstractReport.php:53-135 | `render` moves the report to `RenderSpec` of its old state |
| Scenarios.TwoRunsBands | tests/Unit/Report/AbstractReport/SingleLevelGroupingTest.php:51-62 | any three records keyed A, A, B give the ten bands of two groups |
| Scenarios.TwoRunsNames | tests/Unit/Report/AbstractReport/SingleLevelGroupingTest.php:51-62 | and those bands carry the test's ten names |
| Scenarios.SalesBandNames | tests/Unit/Report/AbstractReport/SingleLevelGroupingTest.php:18-62 | the test's three sales give exactly the asserted band names |
| Scenarios.TwoRunsStarts | tests/Unit/Report/AbstractReport/SingleLevelGroupingTest.php:18-22 | with keys A, A, B the groups start at the first and the third record |
| Scenarios.FirstRunFooter | tests/Unit/Report/AbstractReport/SingleLevelGroupingTest.php:68-71 | the first footer shows records one and two, a count of 2, and each aggregate over them |
| Scenarios.SecondRunFooter | tests/Unit/Report/AbstractReport/SingleLevelGroupingTest.php:77-80 | the second footer shows the third record alone, a count of 1 |
| Scenarios.SalesContexts | tests/Unit/Report/AbstractReport/SingleLevelGroupingTest.php:64-112 | headers show their first sale with a zero count; footers show counts 2 and 1 and `sumAmount` 300 and 300 |
| Scenarios.ItemsRuns | tests/Unit/Report/AbstractReport/SingleLevelGroupingTest.php:120-126 | the five items form two groups, starting at items one and four |
| Scenarios.AllKindsAliases | tests/Unit/Report/AbstractReport/SingleLevelGroupingTest.php:140-147 | each of the five amount aliases is declared once, and no calculation reuses it |
| Scenarios.FooterValues | tests/Unit/Report/AbstractReport/SingleLevelGroupingTest.php:155-166 | alias `i` of each footer is aggregate `i` over exactly that group's items |
| Scenarios.ElectronicsValues | tests/Unit/Report/AbstractReport/SingleLevelGroupingTest.php:168-177 | 100, 200, 300 give sum 600, avg 200, count 3, min 100, max 300 |
| Scenarios.BooksValues | tests/Unit/Report/AbstractReport/SingleLevelGroupingTest.php:171-182 | 50, 30 give sum 80, avg 40, count 2, min 30, max 50 |
| Scenarios.ItemsFooters | tests/Unit/Report/AbstractReport/SingleLevelGroupingTest.php:139-182 | the Electronics and Books footers of the rendered report show those values under their aliases |
| Scenarios.EmptyInput | tests/Unit/Report/AbstractReport/AbstractReportTest.php:19-32 | a fresh report with no record emits `reportHeader`, `summary`, `reportFooter` |

## Left out

- Record sources: `setDataProvider`, the iterator, and the array and Doctrine data providers are left out. `Reports.Report.Render` takes the records as a sequence instead.
- The loop's `$current !== null` test is not modelled. A `null` element inside the sequence would end the PHP loop early; the model has no null record.
- Renderers (HTML, JSON, Twig) and the default string `renderBand` are left out. The band sink is the test renderer's list. The returned output string is not modelled because the test renderer returns `''`.
- The `error_log` debug lines in `buildGroupContext` are left out; they only log.
- `addBand` and the `$bands` field are left out, because `render` never reads them.
- Float field values: `Value` has no float case. A float record field, or an extractor that returns a float, cannot be represented, so `(float)` of a float sample (src/Report/Aggregate.php:37) and `(string)` of a float key (src/Report/AbstractReport.php:143) are not modelled.
- Floating point: aggregate values are exact reals. IEEE rounding is not modelled, and neither is the exponent part of a numeric string.
- `(float)` of an object is modelled as 1.0. PHP also emits a warning, which is not modelled.
- Records are arrays. Object records and `$record->{$expr}` property access are not modelled.
- Nested array values are not modelled as field values.
- A string field name that happens to be callable is treated as a field name. Key and aggregate expressions are a field name or a total pure function of the record.
- `spl_object_hash` is modelled as a 32-character token of an abstract object identity. Its actual hash is not.
- Group states hold the accumulators as values. An `Aggregate` object is not itself a value in the state; `Aggregates.Aggregate` is proved to step exactly like those values.
- The order of a context's entries is not modelled; a context is a map.
- Calculation callbacks are total pure functions of the merged state and context. A context entry that holds a whole PHP array (`aggregates`, `calculations`, `records`) is visible to callbacks only through the entries the model names.
- ReportBuilders.ReportBuilder.Calculate: requires at least one group. With none, the PHP indexes `$this->groups[-1]` and fails with an error the code does not handle.
- ReportBuilders.ReportBuilder.GroupBy and the aggregate methods require the group builders to be distinct objects. This always holds, because `groupBy` creates a new one each time.
- SingleLevel.SingleLevelRender and the scenario lemmas cover one grouping level. For two or more levels, only the per-record band and state lemmas of `MultiLevel` and the level-independent counts of `EngineFacts` are proved.
- The band order asserted by tests/Unit/Report/AbstractReport/MultiLevelGroupingTest.php:47-64 is not produced by the code, so no lemma claims it.
- `groupValue` and summary or report-level aggregates are left out, because the code never builds them. The summary band carries no context.
- JsonRenderer's capture of aggregates at header time is left out, together with the renderer.
