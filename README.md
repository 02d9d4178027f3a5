# Self-healing Playwright test generator: the deterministic core in Dafny

The repository generates Playwright page objects and specs from an
LLM-produced "asset document", runs them, and learns from the outcome. This
project models the parts of it that are plain logic over structured data:

- **the selector knowledge base** (`LearningSystem`, module `Learning`).
  It keeps a map from `"<pageUrl>-<elementName>"` to the selector keys that
  worked and those that failed. It learns from successful and failed runs.
  It rewrites a new asset document with that knowledge. It derives the
  learning report and the improvement advice from the map and the execution
  history.
- **failure analysis and repair** (`FailureAnalyzer`, module `Analyzer`).
  It classifies an error message by keyword precedence and recovers the
  failing page-object method from a stack trace. It suggests exactly one fix
  and prepends a suggested selector to the matching locator.
- **page-object planning** (`scripts/generate-pom.ts`, module `PomGen`).
  It decides which method names a locator gets, deduplicated the way
  `addMethod` does it, and turns each selector into one `locators` line. It
  also checks the page definitions and collects the list of pages.
- **spec generation** (`scripts/generate-spec.ts`, module `SpecGen`).
  It builds the unique page classes, their import, declaration and
  initialisation lines, the spec file name, and the fragment each test step
  becomes.
- **UI pattern post-processing** (`orchestrator/ui-pattern-detector.ts`,
  module `UiPatterns`). It covers the confidence sort of the detected
  patterns, the selector chosen for a matched element, and the deduplicated
  recommendations.

Supporting modules:

- `Common`: `Option` and `Result`.
- `Text`: ASCII case mapping, JavaScript white space, `split`/`join`, JSON
  string quoting, decimal printing.
- `Seqs`: insertion-ordered deduplication as a JavaScript `Set` does it, a
  stable descending sort, filters, and a map that stops at the first error.
- `Schema`: the asset document as datatypes.

Stateful code is modelled in its own form:

- `LearningSystem` and `FailureAnalyzer` are classes whose methods update
  their fields.
- The loops that push onto arrays and sets are methods with loop invariants.
- Each method is proved against a specification function.
- The properties the source promises are lemmas about those functions.

## Model

| member | source | states |
|---|---|---|
| Learning.Put | orchestrator/learning-system.ts:58 | `Map.set` stores the value under the key; an existing key keeps its iteration position and a new key is iterated last |
| Learning.Values | orchestrator/learning-system.ts:229 | `Array.from(map.values())` lists every entry once, in the map's insertion order |
| Learning.Rate | orchestrator/learning-system.ts:216-219 | the success rate lies in [0, 100], is 0 when both lists are empty, and otherwise rate × (working + failed) = 100 × working |
| Learning.NewEntry | orchestrator/learning-system.ts:196-205 | a fresh entry has empty working and failed lists, rate 0, and the given url and name; it is a consistent entry |
| Learning.SelectorToString | orchestrator/learning-system.ts:207-209 | every selector key contains the ':' separator |
| Learning.StringToSelector | orchestrator/learning-system.ts:211-214 | the parsed type never contains ':', the options are dropped, and a string without ':' becomes a type with an empty value |
| Learning.SelectorRoundTrip | orchestrator/learning-system.ts:207-214 | parsing the key of a selector whose type has no ':' restores its type and value (values containing ':' included) and drops its options |
| Learning.KeyRoundTrip | orchestrator/learning-system.ts:207-214 | a key containing ':' survives the opposite round trip unchanged |
| Learning.SelectorKeys | orchestrator/learning-system.ts:83 | one key per selector, in order |
| Learning.LearnLocatorKeepsValid | orchestrator/learning-system.ts:43-58 | one locator iteration of `learnFromSuccess` keeps every entry consistent: no duplicate keys and a rate that matches the lists |
| Learning.LearnLocatorEffect | orchestrator/learning-system.ts:43-58 | one locator iteration records each of the locator's selector keys as working, creates or changes only that locator's entry, never touches a failed list, and only appends to working lists |
| Learning.GrowsWorkingTransitive | orchestrator/learning-system.ts:43-58 | "keys keep their place, working lists only grow at the end, failed lists unchanged" composes over successive updates |
| Learning.LearnAllKeepsValid | orchestrator/learning-system.ts:39-62 | `learnFromSuccess` keeps the whole knowledge base consistent |
| Learning.LearnAllGrowsWorking | orchestrator/learning-system.ts:39-62 | after `learnFromSuccess` existing keys keep their position, new keys are appended at the end, working lists only gain entries at their end, and failed lists are untouched |
| Learning.LearnAllRecordsEverySelector | orchestrator/learning-system.ts:43-53 | after `learnFromSuccess` every selector of every page-object locator is a working key of that locator's entry |
| Learning.LearnAllTouchesOnlyNamedEntries | orchestrator/learning-system.ts:43-58 | `learnFromSuccess` leaves every entry that no locator names exactly as it was, and creates no entry other than those the locators name |
| Learning.TouchesOnlyNamedStep | orchestrator/learning-system.ts:43-58 | the induction step of the previous row: one more locator changes only its own entry |
| Learning.FailedElementNameMatches | orchestrator/learning-system.ts:71-73 | an element name is read from the failed step exactly when one of the verbs click/fill/waitFor/assert/check/select/clear/get/is prefixes it (ignoring case) and is followed by a word character |
| Learning.FailedElementNameShape | orchestrator/learning-system.ts:71-74 | the name read is a non-empty run of word characters whose first letter is not upper-case |
| Learning.MarkFailed | orchestrator/learning-system.ts:78-93 | the failed selector keys not yet recorded are appended to the element's failed list; its working list and every other entry are unchanged; the entry stays consistent |
| Learning.RecordFailedSelectors | orchestrator/learning-system.ts:71-95 | the knowledge base is unchanged unless a name is read from the failed step, the failure type is `selector`, and some page-object locator has exactly that name; no working list ever changes; consistency is kept |
| Learning.RecordFailedSelectorsMarksFirst | orchestrator/learning-system.ts:78-93 | when those three conditions hold, the result is `MarkFailed` for the first locator with that name: its selector keys not yet failed are appended to the entry's failed list, and nothing else changes |
| Learning.CaptureEnvironment | orchestrator/learning-system.ts:247-253 | the environment records the page url and the 1280x720 viewport; the browser is `BROWSER` when that is set and non-empty, else "chromium" |
| Learning.WorkingAsSelectors | orchestrator/learning-system.ts:125-127 | one parsed selector per working key, in order |
| Learning.EnhanceLocator | orchestrator/learning-system.ts:119-145 | a locator without knowledge is unchanged; otherwise its selectors are the working ones first, then its own non-failed ones, not deduplicated, capped at 5; the metadata is `{rate, lastUpdated, enhanced: true}`; nothing else changes |
| Learning.EnhancedSelectorsAvoidFailures | orchestrator/learning-system.ts:125-137 | an enhanced locator carries no failed selector key unless that key is also a working one |
| Learning.MostReliable | orchestrator/learning-system.ts:228-233 | at most 10 entries of the map, each rated above 90 and none more often than the map has it, in non-increasing rate order |
| Learning.TopOfSorted | orchestrator/learning-system.ts:231-232 | a prefix of the sorted reliable entries consists of reliable entries and stays in non-increasing order |
| Learning.MostReliableAreTheTop | orchestrator/learning-system.ts:228-233 | an entry rated above 90 is left out only when ten entries rated at least as high fill the list |
| Learning.OmittedFromTopIsBeaten | orchestrator/learning-system.ts:231-232 | after a descending sort, an element left out of the first `n` means the first `n` exist and are each rated at least as high |
| Learning.Problematic | orchestrator/learning-system.ts:235-243 | exactly the entries rated below 50 are reported, as (name, rate, url): one problem per such entry, in map order |
| Learning.CountSuccesses | orchestrator/learning-system.ts:222 | no more successes than runs |
| Learning.OverallSuccessRate | orchestrator/learning-system.ts:221-226 | the percentage of successful runs, in [0, 100], and 0 for an empty history |
| Learning.FailuresOnlyRateZero | orchestrator/learning-system.ts:99-106 | a history made only of failure records, which is all this system appends, has overall rate 0 |
| Learning.NoSuccessCountsZero | orchestrator/learning-system.ts:222 | a history without a success counts no success |
| Learning.Recommendations | orchestrator/learning-system.ts:271-285 | the stability advice appears exactly when the overall rate is below 80, the data-testid advice exactly when more than 5 elements are problematic; at most one of each, in that order |
| Learning.FailureHours | orchestrator/learning-system.ts:257-258 | the hour of each failure, in order |
| Learning.HoursOf | orchestrator/learning-system.ts:255-262 | the hours of the grouping, in its order |
| Learning.Counts | orchestrator/learning-system.ts:266 | the counts of the grouping, in its order |
| Learning.SumUpdate | orchestrator/learning-system.ts:259 | replacing one count changes the total by the difference |
| Learning.GroupsBump | orchestrator/learning-system.ts:259 | bumping the count of an hour already present keeps the grouping exact for one more failure |
| Learning.GroupsAppend | orchestrator/learning-system.ts:259 | appending a new hour with count 1 keeps the grouping exact for one more failure |
| Learning.CountHour | orchestrator/learning-system.ts:258-259 | one `byHour.set(hour, (byHour.get(hour) \|\| 0) + 1)` keeps the grouping exact: hours in order of first failure, each with its number of failures |
| Learning.HasTimePatternIff | orchestrator/learning-system.ts:264-269 | "some count exceeds twice the mean" is the integer test count × hours > 2 × total; an empty grouping has no pattern |
| Learning.AboveTwiceMean | orchestrator/learning-system.ts:267-268 | for a positive number of hours, v > 2 × (total / n) exactly when v × n > 2 × total |
| Learning.TimePatternMeansCluster | orchestrator/learning-system.ts:180-181 | `hasTimePattern` of the grouping holds exactly when the failures of some hour number more than twice the mean over the hours that saw a failure |
| Learning.LowSuccessSuggestions | orchestrator/learning-system.ts:187-189 | one element-specific suggestion per problematic element, in order, carrying its name and rate |
| Learning.LowSuccessSnoc | orchestrator/learning-system.ts:187-189 | the suggestions for one more element extend the previous ones by that element's suggestion |
| Learning.FailuresAt | orchestrator/learning-system.ts:174-176 | a record is kept exactly when it is a failure whose url contains the test path; none is added |
| Learning.LearningSystem.constructor | orchestrator/learning-system.ts:29-30 | a system without stored knowledge starts with an empty map and an empty history |
| Learning.LearningSystem.LearnFromSuccess | orchestrator/learning-system.ts:39-62 | the new map is the locator-by-locator fold that the `LearnAll*` lemmas describe; the history is unchanged; consistency is kept |
| Learning.LearningSystem.AddWorkingSelectors | orchestrator/learning-system.ts:48-53 | the loop appends exactly the selector keys not yet present, in order, each once |
| Learning.LearningSystem.LearnFromFailure | orchestrator/learning-system.ts:67-109 | the map changes exactly as `RecordFailedSelectors` says; exactly one record (success false, duration 0, the full analysis, the environment) is appended in every case |
| Learning.LearningSystem.AddFailedSelectors | orchestrator/learning-system.ts:85-89 | the `forEach` appends exactly the keys not yet failed, in order, each once |
| Learning.LearningSystem.EnhanceAIAssets | orchestrator/learning-system.ts:114-149 | the result differs from the input document only in its page-object locators, each enhanced with the knowledge for its key; the input is a value and stays unchanged |
| Learning.LearningSystem.GenerateLearningReport | orchestrator/learning-system.ts:154-164 | the report counts every run, its rate is the overall success rate, its lists are `MostReliable` and `Problematic` of the map's entries in insertion order, and its two recommendations follow the overall rate and the number of problematic elements |
| Learning.LearningSystem.GroupFailuresByHour | orchestrator/learning-system.ts:255-262 | the hours appear in order of first failure, each counted by its number of failures, and the counts add up to the number of failures |
| Learning.LearningSystem.AddLowSuccessSuggestions | orchestrator/learning-system.ts:186-189 | the loop appends one suggestion per problematic element, in order |
| Learning.LearningSystem.SuggestImprovements | orchestrator/learning-system.ts:169-193 | no suggestion when no recorded failure concerns the page; otherwise the timing advice exactly when the failures cluster in time, then one suggestion per problematic element |
| Analyzer.CategorizeFailure | orchestrator/failure-analyzer.ts:81-98 | case-insensitive keyword classification with fixed precedence: timing, then selector, then validation, then navigation, else unknown; each outcome holds exactly when its keywords match and no earlier group's do |
| Analyzer.CategorizeIgnoresCase | orchestrator/failure-analyzer.ts:82 | upper-casing a message does not change its category |
| Analyzer.FrameMethod | orchestrator/failure-analyzer.ts:104-106 | the captured method name of an `at X.y ` frame is a non-empty run of word characters |
| Analyzer.FindFrame | orchestrator/failure-analyzer.ts:104 | the search returns the leftmost position where `at \w+\.(\w+)\s` matches, or reports that none does |
| Analyzer.ExtractFailedStep | orchestrator/failure-analyzer.ts:101-109 | the step is "Unknown step" or a non-empty run of word characters |
| Analyzer.ExtractFailedStepFindsFirstFrame | orchestrator/failure-analyzer.ts:101-109 | without a matching frame the step is "Unknown step"; otherwise it is the method named by the leftmost frame |
| Analyzer.ReportedError | orchestrator/failure-analyzer.ts:42-50 | the report yields a message and a stack exactly when its first test result has an error whose message is a string and whose stack is missing, falsy or a string; the stack is then that string, or empty |
| Analyzer.Classify | orchestrator/failure-analyzer.ts:42-64 | when `ReportedError` yields a message and a stack, the message, the step read from the stack and the message's category are used; in every other case (no JSON, no such result, no string message, a truthy stack that is not a string) the raw text is the message and the stack |
| Analyzer.RelatedLocator | orchestrator/failure-analyzer.ts:137-139 | the first locator whose lower-cased name occurs in the lower-cased failed step, or none when no locator's does |
| Analyzer.StripActionPrefix | orchestrator/failure-analyzer.ts:177 | the step loses the one of click/fill/waitFor/assert that prefixes it, ignoring case; it is unchanged when none does |
| Analyzer.ActionPrefixExcludes | orchestrator/failure-analyzer.ts:177 | at most one of the four alternatives matches a step, since they start with different letters |
| Analyzer.PrependSelector | orchestrator/failure-analyzer.ts:188 | `unshift` puts the selector first on the chosen locator; every other locator, the other pages and the steps are unchanged |
| Analyzer.Basename | orchestrator/failure-analyzer.ts:70 | the test name is the last slash-free segment of the path: a slash or the start precedes it and only slashes follow it; it is empty only when the path holds nothing but slashes |
| Analyzer.TrimTrailingSlashes | orchestrator/failure-analyzer.ts:70 | a prefix of the path, followed only by slashes, that does not end in a slash |
| Analyzer.AfterLastSlash | orchestrator/failure-analyzer.ts:70 | the longest slash-free suffix of the path: the whole path, or the text after its last slash |
| Analyzer.FailureAnalyzer.constructor | orchestrator/failure-analyzer.ts:28 | the history map starts empty |
| Analyzer.FixFor | orchestrator/failure-analyzer.ts:117-159 | timing with "outside of the viewport" gives wait 0.95, other timing wait 0.8, selector with a related locator a selector fix 0.85 whose code is the `data-testid` selector of that locator, anything else retry 0.3 |
| Analyzer.AppliedFixIsSelectorFix | orchestrator/failure-analyzer.ts:117-170 | at `applyFixes`' default threshold 0.8 the suggested fix is applicable exactly when it is the selector fix of a selector failure with a related locator; wait and retry fixes never are |
| Analyzer.FailureAnalyzer.GenerateSuggestedFixes | orchestrator/failure-analyzer.ts:117-159 | the pushes and the sort leave exactly one fix, the one `FixFor` chooses |
| Analyzer.FailureAnalyzer.ApplyFixes | orchestrator/failure-analyzer.ts:165-202 | it reports a change exactly when an applicable fix (confidence ≥ threshold, type selector, non-empty code) and a locator named like the stripped step exist, the code parses, and no selector with that type and value is present; then it prepends the selector and changes nothing else; otherwise the document is unchanged |
| Analyzer.FailureAnalyzer.AddToHistory | orchestrator/failure-analyzer.ts:205-210 | the analysis is appended to the list of the test path, created empty first if needed; every other path is unchanged |
| Analyzer.FailureAnalyzer.AnalyzeFailure | orchestrator/failure-analyzer.ts:30-79 | the analysis carries the base name of the test path, the classification of the report or raw text, and as its only suggested fix the one `FixFor` chooses for that classification; it is appended to the history |
| PomGen.Capitalize | scripts/generate-pom.ts:34 | only the first character is upper-cased; the length and the rest are unchanged |
| PomGen.CapitalizeRoundTrip | scripts/generate-pom.ts:34 | lower-casing the first character undoes `capitalize` on a name that does not start with an upper-case letter |
| PomGen.Describe | scripts/generate-pom.ts:70 | the description neither starts nor ends with white space |
| PomGen.Unspace | scripts/generate-pom.ts:70 | removing the spaces leaves no space |
| PomGen.UnspaceConcat | scripts/generate-pom.ts:70 | removing spaces distributes over concatenation |
| PomGen.UnspaceBlank | scripts/generate-pom.ts:70 | a run of spaces vanishes |
| PomGen.UnspaceNoBlank | scripts/generate-pom.ts:70 | a text without spaces is unchanged |
| PomGen.UnspacePiece | scripts/generate-pom.ts:70 | the piece `replace` writes for one character loses only its inserted space |
| PomGen.SpaceBeforeUpperSnoc | scripts/generate-pom.ts:70 | the replacement of a longer name extends that of its prefix |
| PomGen.SpaceBeforeUpperUnspace | scripts/generate-pom.ts:70 | `replace(/([A-Z])/g, ' $1')` on a name without spaces only inserts spaces |
| PomGen.SpaceBeforeUpperChars | scripts/generate-pom.ts:70 | the replacement adds no white space other than ' ' |
| PomGen.TrimmedFrontIsBlank | scripts/generate-pom.ts:70 | what `trim` removes at the front is blank |
| PomGen.TrimmedBackIsBlank | scripts/generate-pom.ts:70 | what `trim` removes at the back is blank |
| PomGen.UnspaceAroundBlanks | scripts/generate-pom.ts:70 | blanks around a text vanish when the spaces are removed |
| PomGen.TrimPieces | scripts/generate-pom.ts:70 | a text is its trimmed front, its trimmed result and its trimmed back |
| PomGen.UnspaceTrim | scripts/generate-pom.ts:70 | trimming a text whose only white space is ' ' loses nothing but spaces |
| PomGen.DescribeOnlyAddsSpaces | scripts/generate-pom.ts:70 | the description of a name without white space gives the name back when its spaces are removed |
| PomGen.LocatorLine | scripts/generate-pom.ts:38-55 | a getByRole/getByLabel/getByPlaceholder/getByText selector becomes `this.page.<type>('<value>'` then `, <options>` when it has options, then `)`; any other type becomes `this.page.locator(` with the value in backquotes `)` |
| PomGen.LocatorLineRoundTrip | scripts/generate-pom.ts:38-55 | reading the argument of a line back, up to its closing quote, gives the selector's value when the value does not contain that quote |
| PomGen.NonGetByIgnoresOptions | scripts/generate-pom.ts:50-53 | css, locator and any other type ignore the options |
| PomGen.GetByShowsOptions | scripts/generate-pom.ts:39-49 | the line of a getBy… selector with options is its line without options with `, <options>` inserted before the closing parenthesis |
| PomGen.LocatorLines | scripts/generate-pom.ts:37-58 | one line per selector, in order |
| PomGen.WithCommas | scripts/generate-pom.ts:57 | every line but the last is followed by a comma |
| PomGen.JoinWithCommas | scripts/generate-pom.ts:57 | joining with ",\n" is joining the comma-terminated lines with "\n" |
| PomGen.JoinFramed | scripts/generate-pom.ts:57 | the opening line, the joined lines and the closing line, separated by line breaks, are the join of all of them |
| PomGen.JoinSnoc | scripts/generate-pom.ts:57 | joining one more line appends a line break and that line |
| PomGen.FramedSplit | scripts/generate-pom.ts:57 | splitting that text at line breaks gives the lines back when none holds a line break |
| PomGen.LocatorLineNoBreak | scripts/generate-pom.ts:38-55 | a selector whose texts have no line break gives a line without one |
| PomGen.BuildLocatorsArrayLines | scripts/generate-pom.ts:37-58 | the array declaration splits into its opening line, one line per selector in order (each but the last ending in a comma) and its closing line; with no selector an empty line stands between them |
| PomGen.AddVerbMember | scripts/generate-pom.ts:140-145 | one `startsWith` test adds its verb exactly when the action starts with it |
| PomGen.AddVerbDistinct | scripts/generate-pom.ts:140-145 | adding a verb to the set keeps it free of duplicates |
| PomGen.AddStepVerbsMember | scripts/generate-pom.ts:139-145 | the scan of one step adds exactly the six template verbs its action starts with (case-sensitive) |
| PomGen.SomeStepSnoc | scripts/generate-pom.ts:139-145 | some step of a longer list starts with the verb exactly when some earlier one or the last one does |
| PomGen.RequiredActionsDistinct | scripts/generate-pom.ts:136-145 | like the `Set`, the required actions hold no duplicates |
| PomGen.AddStepVerbsDistinct | scripts/generate-pom.ts:139-145 | the six tests of one step keep the set free of duplicates |
| PomGen.RequiredActionsSnoc | scripts/generate-pom.ts:139-145 | the required actions after one more step are those of the previous steps plus that step's verbs |
| PomGen.RequiredActionsMemberStep | scripts/generate-pom.ts:136-145 | the induction step of the next row |
| PomGen.RequiredActionsMember | scripts/generate-pom.ts:136-145 | an action is required exactly when the locator lists it or it is one of click/fill/check/select/clear/getValue and some relevant step starts with it |
| PomGen.OneOfNamesMembers | scripts/generate-pom.ts:147-163 | every `assert…OneOf` name comes from a relevant step, and every relevant step whose action starts with "assert" and ends with "OneOf" contributes its action |
| PomGen.ActionMethodNamesShape | scripts/generate-pom.ts:168-268 | each action method name is a required template verb followed by the element name |
| PomGen.ActionMethodNamesCover | scripts/generate-pom.ts:168-268 | every required template verb yields its `<verb><Name>` method |
| PomGen.MethodPlan | scripts/generate-pom.ts:65-78 | within one element each method name appears at most once |
| PomGen.WaitForComesFirst | scripts/generate-pom.ts:82-91 | `waitFor<Name>Visible` is always the first method |
| PomGen.ActionVerbFacts | scripts/generate-pom.ts:172-266 | the template verbs have 4 to 8 letters, never 7, and none starts with 'a' |
| PomGen.ActionVerbShape | scripts/generate-pom.ts:172-266 | the same facts for one template verb |
| PomGen.NotActionMethodName | scripts/generate-pom.ts:168-268 | a name whose part before the element name has 7 or more than 8 letters is not an action method name |
| PomGen.NotOneOfName | scripts/generate-pom.ts:147 | a name not ending in 'f' is no `assert…OneOf` name |
| PomGen.NotOneOfNameByHead | scripts/generate-pom.ts:147 | a name not starting with 'a' is no `assert…OneOf` name |
| PomGen.VerbNameNotFixed | scripts/generate-pom.ts:86-122 | a template verb method never collides with waitFor…Visible, get…Text, assert…Text or is…Visible |
| PomGen.TextMethodsIffNoActions | scripts/generate-pom.ts:95-131 | get…Text, assert…Text and is…Visible are generated exactly when the locator declares no actions |
| PomGen.ActionMethodNameOf | scripts/generate-pom.ts:168-268 | `<verb><Name>` is an action method name exactly when the verb is required and has a template |
| PomGen.VerbMethodIffRequired | scripts/generate-pom.ts:168-268 | for a template verb, `<verb><Name>` is generated exactly when the verb is a required action |
| PomGen.VerbMethodIffRequested | scripts/generate-pom.ts:136-268 | for a template verb, `<verb><Name>` is generated exactly when the locator lists the action or a relevant step starts with the verb |
| PomGen.OneOfStepsIncluded | scripts/generate-pom.ts:147-163 | every relevant `assert…OneOf` step gets a method named exactly after its action |
| PomGen.AddMethod | scripts/generate-pom.ts:73-78 | a method is kept only if its code is non-empty and its name was not generated before; the methods stay the deduplicated list of the offered ones |
| PomGen.GenerateMethodsForElement | scripts/generate-pom.ts:65-271 | the method names emitted are exactly the method plan |
| PomGen.ScanRelevantSteps | scripts/generate-pom.ts:136-165 | the scan leaves the required actions described by `RequiredActionsMember` and offers the `assert…OneOf` methods in step order |
| PomGen.ScanInvariantStep | scripts/generate-pom.ts:139-164 | the scan's invariant holds after one more step |
| PomGen.ScanStep | scripts/generate-pom.ts:139-164 | one step runs its six verb tests and offers its `assert…OneOf` method, if any |
| PomGen.AddActionMethods | scripts/generate-pom.ts:168-268 | one `<action><Name>` method is offered per required action that has a template, in set order |
| PomGen.PageObjectClassContents | scripts/generate-pom.ts:276-306 | a page without class name or locators is refused with that page in the error; otherwise each locator gets its method plan, in order, and `elementCount` is the number of locators |
| PomGen.CollectPageObjects | scripts/generate-pom.ts:321-331 | the pages are `pageObject` then the additional pages, in order; no page at all is an error |
| PomGen.GenerateAll | scripts/generate-pom.ts:316-358 | every page of the list is generated in order, and the run stops with the error of the first page that fails the checks |
| SpecGen.ClassNames | scripts/generate-spec.ts:56 | the class name of each page, in order |
| SpecGen.UniqueClassNames | scripts/generate-spec.ts:55-56 | no duplicates, the main page's class first, and exactly the class names of the main and the additional pages |
| SpecGen.AllClassNames | scripts/generate-spec.ts:55-56 | the main page's class name, then those of the additional pages |
| SpecGen.UniqueClassNamesOrder | scripts/generate-spec.ts:56 | the unique class names keep the order of their first occurrence |
| SpecGen.InstanceName | scripts/generate-spec.ts:65 | the instance name is the class name with only its first character lower-cased |
| SpecGen.InstanceNameRoundTrip | scripts/generate-spec.ts:65 | capitalising the instance name gives back a class name that does not start lower-case |
| SpecGen.InstanceNamesCanClash | scripts/generate-spec.ts:64-67 | "HomePage" and "homePage" get the same instance name, so their declarations clash |
| SpecGen.InstanceNamesDistinct | scripts/generate-spec.ts:64-67 | distinct class names that do not start lower-case get distinct instance names |
| SpecGen.Lines | scripts/generate-spec.ts:59-73 | one line per unique class name, in order |
| SpecGen.ImportLineNoBreak | scripts/generate-spec.ts:59-61 | the import line of a class name without a line break has none |
| SpecGen.DeclarationLineNoBreak | scripts/generate-spec.ts:64-67 | the same for the declaration line |
| SpecGen.InitializationLineNoBreak | scripts/generate-spec.ts:70-73 | the same for the initialisation line |
| SpecGen.LinesHaveNoBreak | scripts/generate-spec.ts:59-73 | none of the three lines of such a class name has a line break |
| SpecGen.InstanceNameNoBreak | scripts/generate-spec.ts:65 | the instance name adds no line break |
| SpecGen.BlockLines | scripts/generate-spec.ts:59-73 | joining per-class lines with "\n" and splitting the block again gives the lines back |
| SpecGen.OneLinePerClass | scripts/generate-spec.ts:59-73 | the import, declaration and initialisation blocks each hold exactly one line per unique class name, in order |
| SpecGen.LeadingRun | scripts/generate-spec.ts:76 | the run of separators at the start fits in the text and is non-empty when the text starts with one |
| SpecGen.LeadingRunIsMaximal | scripts/generate-spec.ts:76 | the run is maximal, as `\s+` matches greedily |
| SpecGen.CollapseRunsLeavesNoSeparator | scripts/generate-spec.ts:76 | after collapsing no separator is left, and the text is no longer |
| SpecGen.TestFileName | scripts/generate-spec.ts:76 | the file name contains no white space and no upper-case letter, and is no longer than the test-case name |
| SpecGen.CollapseRunsKeepsWords | scripts/generate-spec.ts:76 | a text without separators is unchanged |
| SpecGen.FileNameOfOneWord | scripts/generate-spec.ts:76 | a test-case name without white space is only lower-cased |
| SpecGen.LeadingRunOfRun | scripts/generate-spec.ts:76 | the leading run of a separator block followed by a word character is that block |
| SpecGen.LeadingRunConcat | scripts/generate-spec.ts:76 | the leading run ending inside a text does not change when more text follows |
| SpecGen.RunAtStart | scripts/generate-spec.ts:76 | a leading run becomes one '-' |
| SpecGen.CollapseWordHead | scripts/generate-spec.ts:76 | a leading word character is kept |
| SpecGen.PrependWordChar | scripts/generate-spec.ts:76 | a step of the induction in `RunBecomesOneDash`: a word character put in front |
| SpecGen.RunAfterWordChar | scripts/generate-spec.ts:76 | the same step, stated on the whole text |
| SpecGen.CollapseSeparatorHead | scripts/generate-spec.ts:76 | a leading run inside the first piece becomes one '-' |
| SpecGen.PrependDash | scripts/generate-spec.ts:76 | a step of the induction in `RunBecomesOneDash`: a '-' put in front |
| SpecGen.RunAfterSeparators | scripts/generate-spec.ts:76 | the same step, stated on the whole text |
| SpecGen.LeadingRunStopsBeforeEnd | scripts/generate-spec.ts:76 | a text that ends in a word character has a leading run shorter than itself |
| SpecGen.RunBecomesOneDash | scripts/generate-spec.ts:76 | a maximal run of separators between two pieces becomes exactly one '-' |
| SpecGen.WhitespaceRunBecomesOneDash | scripts/generate-spec.ts:76 | in the file name, each maximal white-space run becomes exactly one '-' |
| SpecGen.DispatchOf | scripts/generate-spec.ts:92-98 | "navigate" anywhere in the action (any case) wins; else an action starting with "expect" is an expectation; else a method call |
| SpecGen.SpecFragments | scripts/generate-spec.ts:79-105 | one fragment per test step, in order |
| SpecGen.OmittedStepIsComment | scripts/generate-spec.ts:81-84 | a step with a missing, empty or unknown page becomes a comment and calls nothing |
| SpecGen.StepCode | scripts/generate-spec.ts:92-98 | every statement a used step becomes is an `await` ending in `);`; by precedence it is `<instance>.navigate(<path JSON>)`, `expect(page).toHaveURL(new RegExp(<params>))`, or `<instance>.<action>(<params joined by ", ">)` |
| SpecGen.StepHeaderIffUsedAndNotFirst | scripts/generate-spec.ts:81-104 | a fragment opens with the "Paso n" comment exactly when its step is used and is not the first one |
| SpecGen.StepHeaderContents | scripts/generate-spec.ts:100-102 | the digits after "Paso " read back as the step's index plus one, so steps are numbered from one, and the fragment ends with the step's statement on a line of its own |
| SpecGen.NumberedText | scripts/generate-spec.ts:100-102 | a number printed after a prefix and before a text starting with ':' reads back as that number |
| SpecGen.NavigateIgnoresParams | scripts/generate-spec.ts:92-93 | a navigation step ignores its parameters and navigates to the test case's path |
| SpecGen.UsedStepHasDeclaredInstance | scripts/generate-spec.ts:64-87 | a used step calls a method on an instance that the spec declares |
| UiPatterns.DetectPatterns | orchestrator/ui-pattern-detector.ts:32-43 | the result is a permutation of the collected patterns in non-increasing confidence order |
| UiPatterns.DetectPatternsKeepsOrderedInput | orchestrator/ui-pattern-detector.ts:43 | the sort is stable: patterns already in non-increasing confidence keep the detectors' order |
| UiPatterns.SplitHead | orchestrator/ui-pattern-detector.ts:460 | the first token of `split(' ')` is the text up to the first space |
| UiPatterns.SelectorByAttribute | orchestrator/ui-pattern-detector.ts:455-465 | `#id` when the id is non-empty; else '.' and the class attribute up to its first space (a space-free prefix followed by a space or the end); else the lower-cased tag |
| UiPatterns.ClassSelectorNamesFirstToken | orchestrator/ui-pattern-detector.ts:458-461 | the class written first in the attribute is the one the selector names, whatever classes follow |
| UiPatterns.LeadingSpaceGivesBareDot | orchestrator/ui-pattern-detector.ts:460-461 | a class attribute starting with a space yields the bare selector "." |
| UiPatterns.SelectorKindIsVisible | orchestrator/ui-pattern-detector.ts:455-465 | for a tag starting with a letter, the selector starts with '#' exactly when there is an id and with '.' exactly when there is a class and no id |
| UiPatterns.PushAdvice | orchestrator/ui-pattern-detector.ts:475-511 | one pattern pushes exactly its contribution, in order |
| UiPatterns.GenerateRecommendations | orchestrator/ui-pattern-detector.ts:471-515 | success exactly when no list pattern lacks elements, then the deduplicated pushed messages; otherwise the error names the first such pattern |
| UiPatterns.RecommendationsDistinct | orchestrator/ui-pattern-detector.ts:514 | the recommendations repeat no message |
| UiPatterns.RecommendationsInPushOrder | orchestrator/ui-pattern-detector.ts:514 | messages appear in the order in which they were first pushed |
| UiPatterns.RecommendedIffContributed | orchestrator/ui-pattern-detector.ts:474-514 | a message is recommended exactly when some pattern pushes it |
| UiPatterns.RecommendedIffSomePattern | orchestrator/ui-pattern-detector.ts:474-514 | a message pushed exactly by the patterns of some kind is recommended exactly when one such pattern is present |
| UiPatterns.ValidationAdviceSource | orchestrator/ui-pattern-detector.ts:476-479 | only a form with `hasValidation` pushes the validation advice |
| UiPatterns.FormStepsAdviceSource | orchestrator/ui-pattern-detector.ts:480-482 | only a form with `hasMultiStep` pushes the step advice |
| UiPatterns.ConditionalFieldsAdviceSource | orchestrator/ui-pattern-detector.ts:483-485 | only a form with `hasConditionalFields` pushes the conditional-field advice |
| UiPatterns.PaginationAdviceSource | orchestrator/ui-pattern-detector.ts:499-501 | only a list whose first element has pagination pushes the pagination advice |
| UiPatterns.FiltersAdviceSource | orchestrator/ui-pattern-detector.ts:502-504 | only a list whose first element has filters pushes the filter advice |
| UiPatterns.FormAdviceFollowsFlags | orchestrator/ui-pattern-detector.ts:476-486 | each form message is recommended exactly when some form pattern has its flag set |
| UiPatterns.ListAdviceFollowsFirstElement | orchestrator/ui-pattern-detector.ts:498-505 | each list message is recommended exactly when some list pattern's first element has the flag |
| UiPatterns.FixedAdviceSource | orchestrator/ui-pattern-detector.ts:488-510 | a modal, loading or wizard message is pushed exactly by the patterns of that kind |
| UiPatterns.FixedAdviceFollowsKind | orchestrator/ui-pattern-detector.ts:488-510 | both fixed messages of modal, loading and wizard are recommended exactly when a pattern of that kind is present |
| UiPatterns.SilentKindsRecommendNothing | orchestrator/ui-pattern-detector.ts:474-512 | navigation, table and search patterns bring no advice at all |
| Seqs.AppendMissing | orchestrator/learning-system.ts:48-53 | push-if-not-included keeps the old list as a prefix, holds exactly the old and the new values, and adds no duplicate to a list that had none |
| Seqs.Dedup | orchestrator/ui-pattern-detector.ts:514 | `[...new Set(xs)]` keeps exactly the values of the list, without duplicates |
| Seqs.DedupKeepsFirstOccurrenceOrder | scripts/generate-spec.ts:56 | `[...new Set(xs)]` keeps the values in the order of their first occurrence |
| Seqs.SortDesc | orchestrator/learning-system.ts:231 | a descending sort by a numeric key gives a permutation in non-increasing order |
| Seqs.SortDescOfSorted | orchestrator/ui-pattern-detector.ts:43 | the stable sort leaves a list already in order unchanged |
| Seqs.Filter | orchestrator/learning-system.ts:230 | `filter` keeps exactly the elements that pass the test and is no longer than the input |
| Seqs.FilterSubMultiset | orchestrator/learning-system.ts:230 | `filter` keeps each element at most as often as the input has it |
| Seqs.Take | orchestrator/learning-system.ts:232 | `slice(0, n)` is the prefix of length n, or the whole list when it is shorter |
| Seqs.TakeSubMultiset | orchestrator/learning-system.ts:232 | `slice(0, n)` keeps each element at most as often as the list has it |
| Seqs.TryMap | scripts/generate-pom.ts:341-351 | a map that throws at the first failing element: on success one result per element, in order; on failure the error of the first failing element, all before it having succeeded |
| Text.Lower | orchestrator/failure-analyzer.ts:82 | `toLowerCase` on ASCII letters: same length, each character lower-cased, so no upper-case letter is left |
| Text.Split | orchestrator/ui-pattern-detector.ts:460 | `split(c)` always yields at least one piece, so `[0]` exists |
| Text.SplitJoin | scripts/generate-spec.ts:59-73 | splitting a join of separator-free pieces gives the pieces back |
| Text.Trim | scripts/generate-pom.ts:70 | the result of `trim` has no white space at either end |
| Text.NatToString | scripts/generate-spec.ts:101 | a number prints as a non-empty string of decimal digits without a leading zero |
| Text.NatToStringRoundTrip | scripts/generate-spec.ts:101 | reading the printed digits back gives the number |
| Text.DigitRunLength | scripts/generate-spec.ts:101 | the run of digits at the start of a text fits in it and holds only digits |
| Text.DigitRunOfConcat | scripts/generate-spec.ts:101 | the digit run of digits followed by a non-digit is exactly those digits |

## Left out

- File persistence is not modelled: `loadKnowledge`/`saveKnowledge`, the history log file, and the asset file reads and writes. The classes hold the in-memory state only.
- The command lines of both generator scripts are not modelled: `process.argv`, `fs.writeFileSync`, `process.exit` and the console output.
- `JSON.parse` and `JSON.stringify` are foreign library calls. Reports and asset documents arrive already parsed, and a parse that throws is `None`. A fix's code is parsed by a function parameter of `ApplyFixes`. A step's `JSON.stringify` text is a parameter of `SpecFragments`. Selector options and step parameters are kept as their JSON text.
- The clock is not modelled: `new Date()` becomes the `now` parameter, and the hour `getHours` reads becomes the `hour` parameter stored in each record. Time-zone conversion is outside the model.
- `process.env.BROWSER` is the `browserVar` parameter of `LearnFromFailure`.
- The browser-driven detectors (`detect*`, orchestrator/ui-pattern-detector.ts:49-448) are not modelled: their results are the inputs of `DetectPatterns`. `getSelector` takes the id, class and tag as values instead of reading them from an element handle.
- The template prose of generated methods, page-object classes and spec files is not modelled. A method is identified by its name, and a recommendation or suggestion by a constructor or constant.
- PomGen.GeneratePageObjectClass: `methodCount` is modelled as the number of planned methods, not as the source's count of "async " occurrences in the generated text. A description containing "async " would make the source count more.
- PomGen.GenerateAll: the source writes each page's file before a later page fails; the model only returns the error.
- UiPatterns.PatternElement: only the truthiness of `hasPagination` and `hasFilters` is kept from the attribute record.
- UiPatterns.GenerateRecommendations: the `TypeError` a list pattern without elements raises is the `EmptyListPattern` error.
- UiPatterns.DetectPatterns: stability of the sort is proved only for input already in confidence order, not for ties in general.
- Text.Lower: `toLowerCase` and `toUpperCase` map only the ASCII letters; a non-ASCII letter such as 'É' stays unchanged in the model, while JavaScript would convert it.
- Learning.Rate: rates are exact reals, not IEEE doubles, so the source's rounding (for example 2/3 × 100) is not modelled.
- Learning.LearningSystem.EnhanceAIAssets: the deep clone is modelled by value semantics, so aliasing between the input and the output cannot arise in the model.
- The LLM services, the visual helper, the page objects, the tests and the orchestrator's entry point are not part of this model.
