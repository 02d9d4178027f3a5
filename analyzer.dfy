/** Failure analysis and repair (orchestrator/failure-analyzer.ts): classify
    a failed run from the Playwright JSON report or the raw output, recover
    the failing page-object method from the stack trace, suggest one fix and
    patch the asset document with a suggested selector. */
module Analyzer {
  import opened Common
  import opened Text
  import opened Seqs
  import opened Schema

  datatype FailureType = SelectorFailure | TimingFailure | ValidationFailure | NavigationFailure | UnknownFailure

  datatype FixType = SelectorFix | WaitFix | AssertionFix | RetryFix

  /** `code` is the JSON text of the selector a selector fix proposes. */
  datatype SuggestedFix = SuggestedFix(kind: FixType, description: string, code: Option<string>, confidence: real)

  datatype FailureAnalysis = FailureAnalysis(
    testName: string,
    failureType: FailureType,
    failedStep: string,
    errorMessage: string,
    suggestedFixes: seq<SuggestedFix>)

  /** The `stack` of a reported error, as `stack || ''` and the `match` call
      that follows see it: `NoStack` when it is missing or falsy (it becomes
      ''), `StackText` when it is a string, and `NonStringStack` when it is a
      truthy value that is not a string (a number, `true`, an object, an
      array), whose missing `match` method makes the source throw. */
  datatype Stack = NoStack | StackText(text: string) | NonStringStack

  /** The part of a parsed Playwright JSON report the analyzer walks. A missing
      array is the empty sequence; a `message` that is missing or is not a
      string is `None`. */
  datatype ErrorInfo = ErrorInfo(message: Option<string>, stack: Stack)
  datatype TestResult = TestResult(error: Option<ErrorInfo>)
  datatype ReportTest = ReportTest(results: seq<TestResult>)
  datatype ReportSpec = ReportSpec(tests: seq<ReportTest>)
  datatype Suite = Suite(suites: seq<Suite>, specs: seq<ReportSpec>)
  datatype Report = Report(suites: seq<Suite>)

  const UnknownStep: string := "Unknown step"
  const DefaultThreshold: real := 0.8

  const ViewportDescription: string := "El elemento no estaba visible. Añadir scrollIntoViewIfNeeded() antes de la acción."
  const TimeoutDescription: string := "Aumentar el timeout o añadir una espera explícita (ej. waitForLoadState)."
  const RetryDescription: string := "Reintentar la prueba para descartar un fallo intermitente."

  function SelectorFixDescription(name: string): string {
    "Sugerir un selector alternativo para '" + name + "' usando data-testid"
  }

  /** `JSON.stringify({ type: "locator", value: "[data-testid='<name>-test']" })` */
  function SelectorFixCode(name: string): string {
    "{\"type\":\"locator\",\"value\":" + JsonQuote("[data-testid='" + name + "-test']") + "}"
  }

  // ---------------------------------------------------------------------
  // Classification

  /** `categorizeFailure`: keyword tests on the lower-cased message, first
      matching group wins. */
  function CategorizeFailure(errorMessage: string): (t: FailureType)
    ensures var m := Lower(errorMessage);
      var timing := Contains(m, "timeout") || Contains(m, "waiting for");
      var selector := Contains(m, "locator") || Contains(m, "selector") || Contains(m, "element not found");
      var validation := Contains(m, "expect") || Contains(m, "assertion");
      var navigation := Contains(m, "navigation") || Contains(m, "goto");
      && (t == TimingFailure <==> timing)
      && (t == SelectorFailure <==> !timing && selector)
      && (t == ValidationFailure <==> !timing && !selector && validation)
      && (t == NavigationFailure <==> !timing && !selector && !validation && navigation)
      && (t == UnknownFailure <==> !timing && !selector && !validation && !navigation)
  {
    var m := Lower(errorMessage);
    if Contains(m, "timeout") || Contains(m, "waiting for") then TimingFailure
    else if Contains(m, "locator") || Contains(m, "selector") || Contains(m, "element not found") then SelectorFailure
    else if Contains(m, "expect") || Contains(m, "assertion") then ValidationFailure
    else if Contains(m, "navigation") || Contains(m, "goto") then NavigationFailure
    else UnknownFailure
  }

  /** Upper-casing a message does not change its category. */
  lemma {:induction false} CategorizeIgnoresCase(m: string)
    ensures CategorizeFailure(Upper(m)) == CategorizeFailure(m)
  {
    assert Lower(Upper(m)) == Lower(m) by {
      forall i | 0 <= i < |m| ensures Lower(Upper(m))[i] == Lower(m)[i] {
        var c := m[i];
        if IsLower(c) {
          assert ToUpper(c) as int == c as int - 32;
        }
      }
    }
  }

  /** The regular expression `at \w+\.(\w+)\s` matches at position `i`. */
  predicate FrameAt(s: string, i: nat) {
    i + 3 <= |s| && s[i..i + 3] == "at " &&
    var a := i + 3 + WordRunLength(s[i + 3..]);
    a > i + 3 && a < |s| && s[a] == '.' &&
    var b := a + 1 + WordRunLength(s[a + 1..]);
    b > a + 1 && b < |s| && IsSpace(s[b])
  }

  /** The capture group of that match: the method name after the dot. */
  function FrameMethod(s: string, i: nat): (r: string)
    requires FrameAt(s, i)
    ensures |r| > 0 && forall k :: 0 <= k < |r| ==> IsWordChar(r[k])
  {
    var a := i + 3 + WordRunLength(s[i + 3..]);
    var b := a + 1 + WordRunLength(s[a + 1..]);
    assert forall k :: a + 1 <= k < b ==> IsWordChar(s[k]) by {
      forall k | a + 1 <= k < b ensures IsWordChar(s[k]) {
        assert s[a + 1..][k - a - 1] == s[k];
      }
    }
    s[a + 1..b]
  }

  /** The leftmost match at or after `from`. */
  function FindFrame(s: string, from: nat): (r: Option<nat>)
    requires from <= |s|
    ensures r.None? ==> forall i :: from <= i <= |s| ==> !FrameAt(s, i)
    ensures r.Some? ==> from <= r.value <= |s| && FrameAt(s, r.value)
                        && forall i :: from <= i < r.value ==> !FrameAt(s, i)
    decreases |s| - from
  {
    if from == |s| then None
    else if FrameAt(s, from) then Some(from)
    else FindFrame(s, from + 1)
  }

  /** `extractFailedStep`: the method name of the first `at Class.method `
      frame, or the sentinel. */
  function ExtractFailedStep(errorStack: string): (r: string)
    ensures r == UnknownStep || (|r| > 0 && forall k :: 0 <= k < |r| ==> IsWordChar(r[k]))
  {
    if errorStack == "" then UnknownStep
    else match FindFrame(errorStack, 0)
      case None => UnknownStep
      case Some(i) => FrameMethod(errorStack, i)
  }

  /** Without a frame the step is the sentinel; otherwise it is the method
      named by the leftmost frame, a non-empty run of word characters. */
  lemma ExtractFailedStepFindsFirstFrame(errorStack: string)
    ensures (forall i :: 0 <= i <= |errorStack| ==> !FrameAt(errorStack, i)) ==> ExtractFailedStep(errorStack) == UnknownStep
    ensures forall i :: 0 <= i <= |errorStack| && FrameAt(errorStack, i)
                        && (forall j :: 0 <= j < i ==> !FrameAt(errorStack, j))
                        ==> ExtractFailedStep(errorStack) == FrameMethod(errorStack, i)
  {
    forall i | 0 <= i <= |errorStack| && FrameAt(errorStack, i) && (forall j :: 0 <= j < i ==> !FrameAt(errorStack, j))
      ensures ExtractFailedStep(errorStack) == FrameMethod(errorStack, i)
    {
      var found := FindFrame(errorStack, 0);
      assert found.Some? && found.value == i;
    }
  }

  /** `suites?.[0]?.suites?.[0]?.specs?.[0]?.tests?.[0]?.results?.[0]` */
  function FirstTestResult(report: Report): Option<TestResult> {
    if report.suites == [] || report.suites[0].suites == [] then None
    else
      var suite := report.suites[0].suites[0];
      if suite.specs == [] || suite.specs[0].tests == [] || suite.specs[0].tests[0].results == [] then None
      else Some(suite.specs[0].tests[0].results[0])
  }

  /** The error of the first test result, when the `try` block gets through
      it: `(message, stack || '')`. Any other shape makes the source fall
      through to the raw-text branch: a missing result or error takes the
      `else`, a message that is not a string makes `toLowerCase` throw, and a
      truthy stack that is not a string makes `match` throw. */
  function ReportedError(report: Option<Report>): (r: Option<(string, string)>)
    ensures r.Some? <==>
      report.Some? && FirstTestResult(report.value).Some?
      && FirstTestResult(report.value).value.error.Some?
      && FirstTestResult(report.value).value.error.value.message.Some?
      && !FirstTestResult(report.value).value.error.value.stack.NonStringStack?
    ensures r.Some? ==>
      var e := FirstTestResult(report.value).value.error.value;
      r.value.0 == e.message.value
      && r.value.1 == (if e.stack.StackText? then e.stack.text else "")
  {
    if report.None? then None
    else match FirstTestResult(report.value)
      case Some(TestResult(Some(ErrorInfo(Some(message), NoStack)))) => Some((message, ""))
      case Some(TestResult(Some(ErrorInfo(Some(message), StackText(stack))))) => Some((message, stack))
      case _ => None
  }

  datatype Classification = Classification(errorMessage: string, failedStep: string, failureType: FailureType)

  /** The try/catch at the start of `analyzeFailure`. `report` is `None` when
      `JSON.parse(rawResult)` throws or yields `null`. */
  function Classify(rawResult: string, report: Option<Report>): (c: Classification)
    ensures ReportedError(report).None? ==>
      c.errorMessage == rawResult
      && c.failedStep == ExtractFailedStep(rawResult)
      && c.failureType == CategorizeFailure(rawResult)
    ensures ReportedError(report).Some? ==>
      var (message, stack) := ReportedError(report).value;
      c.errorMessage == message
      && c.failedStep == ExtractFailedStep(stack)
      && c.failureType == CategorizeFailure(message)
  {
    match ReportedError(report)
    case Some((message, stack)) =>
      Classification(message, ExtractFailedStep(stack), CategorizeFailure(message))
    case None =>
      Classification(rawResult, ExtractFailedStep(rawResult), CategorizeFailure(rawResult))
  }

  // ---------------------------------------------------------------------
  // Repair

  /** The first page-object locator whose lower-cased name occurs in the
      lower-cased failed step. */
  function RelatedLocator(locators: seq<Locator>, failedStep: string): (r: Option<nat>)
    ensures r.None? ==> forall i :: 0 <= i < |locators| ==> !Contains(Lower(failedStep), Lower(locators[i].name))
    ensures r.Some? ==> r.value < |locators| && Contains(Lower(failedStep), Lower(locators[r.value].name))
                        && forall i :: 0 <= i < r.value ==> !Contains(Lower(failedStep), Lower(locators[i].name))
  {
    FindFirst(locators, (loc: Locator) => Contains(Lower(failedStep), Lower(loc.name)))
  }

  /** A fix `applyFixes` may apply: confident enough, a selector fix, and a
      non-empty code. */
  predicate Applicable(fix: SuggestedFix, threshold: real) {
    fix.confidence >= threshold && fix.kind == SelectorFix && fix.code.Some? && fix.code.value != ""
  }

  /** The alternatives of `/^(click|fill|waitFor|assert)/i`. */
  const ActionPrefixes: seq<string> := ["click", "fill", "waitFor", "assert"]

  /** `failedStep.replace(/^(click|fill|waitFor|assert)/i, '')`: the step
      without the prefix that matches, ignoring case, or the step itself when
      none does. The four alternatives start with different letters, so at
      most one of them matches. */
  function StripActionPrefix(step: string): (r: string)
    ensures (forall p :: p in ActionPrefixes ==> !StartsWithIgnoreCase(step, p)) ==> r == step
    ensures forall p :: p in ActionPrefixes && StartsWithIgnoreCase(step, p) ==> r == step[|p|..]
  {
    if StartsWithIgnoreCase(step, "click") then
      ActionPrefixExcludes(step, "click");
      step[5..]
    else if StartsWithIgnoreCase(step, "fill") then
      ActionPrefixExcludes(step, "fill");
      step[4..]
    else if StartsWithIgnoreCase(step, "waitFor") then
      ActionPrefixExcludes(step, "waitFor");
      step[7..]
    else if StartsWithIgnoreCase(step, "assert") then step[6..]
    else step
  }

  /** A step matched by one alternative is matched by no other: they differ
      in their first letter. */
  lemma ActionPrefixExcludes(step: string, p: string)
    requires p in ActionPrefixes && StartsWithIgnoreCase(step, p)
    ensures forall q :: q in ActionPrefixes && q != p ==> !StartsWithIgnoreCase(step, q)
  {
    MatchedFirstLetter(step, p);
    forall q | q in ActionPrefixes
      ensures StartsWithIgnoreCase(step, q) ==> ToLower(step[0]) == q[0]
    {
      MatchedFirstLetter(step, q);
    }
  }

  /** A prefix starting with a lower-case letter matches, ignoring case,
      only a text whose first letter lower-cases to it. */
  lemma MatchedFirstLetter(step: string, p: string)
    requires p != [] && IsLower(p[0])
    ensures StartsWithIgnoreCase(step, p) ==> ToLower(step[0]) == p[0]
  {
    if StartsWithIgnoreCase(step, p) {
      assert Lower(step[..|p|])[0] == Lower(p)[0];
    }
  }

  /** The locator `applyFixes` repairs: its name equals the stripped step,
      ignoring case. */
  predicate NamesStep(loc: Locator, failedStep: string) {
    Lower(loc.name) == Lower(StripActionPrefix(failedStep))
  }

  /** Some selector already has this type and value. */
  predicate HasSelector(selectors: seq<Selector>, sel: Selector) {
    exists s :: s in selectors && s.kind == sel.kind && s.value == sel.value
  }

  /** `locators[index].selectors.unshift(sel)` in the page object. */
  function PrependSelector(assets: Assets, index: nat, sel: Selector): (r: Assets)
    requires index < |assets.pageObject.locators|
    ensures r.additionalPageObjects == assets.additionalPageObjects && r.testSteps == assets.testSteps
    ensures r.pageObject.className == assets.pageObject.className
    ensures |r.pageObject.locators| == |assets.pageObject.locators|
    ensures forall i :: 0 <= i < |r.pageObject.locators| && i != index ==>
              r.pageObject.locators[i] == assets.pageObject.locators[i]
    ensures var old_ := assets.pageObject.locators[index];
            r.pageObject.locators[index] == old_.(selectors := [sel] + old_.selectors)
  {
    var locs := assets.pageObject.locators;
    var loc := locs[index];
    assets.(pageObject := assets.pageObject.(locators := locs[index := loc.(selectors := [sel] + loc.selectors)]))
  }

  /** The last path segment, as Node's POSIX `path.basename` gives it: the
      slash-free text that only slashes follow and that a slash or the start
      precedes; empty when the path holds nothing but slashes. */
  function Basename(path: string): (r: string)
    ensures '/' !in r
    ensures r == [] ==> forall k :: 0 <= k < |path| ==> path[k] == '/'
    ensures r != [] ==> exists j :: LastSegmentAt(path, j, r)
  {
    var trimmed := TrimTrailingSlashes(path);
    var r := AfterLastSlash(trimmed);
    var j := |trimmed| - |r|;
    assert path[j..j + |r|] == trimmed[j..] == r;
    assert LastSegmentAt(path, j, r);
    r
  }

  /** `seg` occurs at `j` in the path, after a slash or at the start, and
      only slashes follow it. */
  predicate LastSegmentAt(path: string, j: nat, seg: string) {
    j + |seg| <= |path| && path[j..j + |seg|] == seg && (j == 0 || path[j - 1] == '/')
    && forall k :: j + |seg| <= k < |path| ==> path[k] == '/'
  }

  /** The path without its trailing slashes. */
  function TrimTrailingSlashes(path: string): (r: string)
    ensures r <= path
    ensures forall k :: |r| <= k < |path| ==> path[k] == '/'
    ensures r == [] || r[|r| - 1] != '/'
  {
    if path != [] && path[|path| - 1] == '/' then TrimTrailingSlashes(path[..|path| - 1]) else path
  }

  /** The longest slash-free suffix of the path. */
  function AfterLastSlash(path: string): (r: string)
    ensures '/' !in r
    ensures |r| <= |path| && r == path[|path| - |r|..]
    ensures |r| == |path| || path[|path| - |r| - 1] == '/'
  {
    if path == [] || path[|path| - 1] == '/' then []
    else AfterLastSlash(path[..|path| - 1]) + [path[|path| - 1]]
  }

  /** The one fix `generateSuggestedFixes` returns: a wait fix for a timing
      failure (0.95 when the element was outside of the viewport, else 0.8),
      a `data-testid` selector fix for a selector failure with a related
      locator, and the retry fallback otherwise. */
  function FixFor(failureType: FailureType, errorMessage: string, failedStep: string, assets: Assets): (f: SuggestedFix)
    ensures failureType == TimingFailure ==>
      f == if Contains(Lower(errorMessage), "outside of the viewport")
           then SuggestedFix(WaitFix, ViewportDescription, None, 0.95)
           else SuggestedFix(WaitFix, TimeoutDescription, None, 0.8)
    ensures failureType == SelectorFailure && RelatedLocator(assets.pageObject.locators, failedStep).Some? ==>
      var name := assets.pageObject.locators[RelatedLocator(assets.pageObject.locators, failedStep).value].name;
      f == SuggestedFix(SelectorFix, SelectorFixDescription(name), Some(SelectorFixCode(name)), 0.85)
    ensures failureType != TimingFailure
            && !(failureType == SelectorFailure && RelatedLocator(assets.pageObject.locators, failedStep).Some?) ==>
      f == SuggestedFix(RetryFix, RetryDescription, None, 0.3)
  {
    var related := RelatedLocator(assets.pageObject.locators, failedStep);
    if failureType == TimingFailure then
      if Contains(Lower(errorMessage), "outside of the viewport") then SuggestedFix(WaitFix, ViewportDescription, None, 0.95)
      else SuggestedFix(WaitFix, TimeoutDescription, None, 0.8)
    else if failureType == SelectorFailure && related.Some? then
      var name := assets.pageObject.locators[related.value].name;
      SuggestedFix(SelectorFix, SelectorFixDescription(name), Some(SelectorFixCode(name)), 0.85)
    else SuggestedFix(RetryFix, RetryDescription, None, 0.3)
  }

  /** `applyFixes` with its default threshold acts on the suggested fix
      exactly when it is the selector fix of a selector failure: the wait and
      retry fixes are never applied, whatever their confidence. */
  lemma {:induction false} AppliedFixIsSelectorFix(failureType: FailureType, errorMessage: string, failedStep: string, assets: Assets)
    ensures Applicable(FixFor(failureType, errorMessage, failedStep, assets), DefaultThreshold) <==>
              failureType == SelectorFailure && RelatedLocator(assets.pageObject.locators, failedStep).Some?
  {
    var f := FixFor(failureType, errorMessage, failedStep, assets);
    if failureType == SelectorFailure && RelatedLocator(assets.pageObject.locators, failedStep).Some? {
      var name := assets.pageObject.locators[RelatedLocator(assets.pageObject.locators, failedStep).value].name;
      assert f.code.value == SelectorFixCode(name);
      assert f.code.value[0] == '{';
    }
  }

  class FailureAnalyzer {
    /** Analyses recorded per test path (the in-memory `failureHistory` map). */
    var failureHistory: map<string, seq<FailureAnalysis>>

    constructor ()
      ensures failureHistory == map[]
    {
      failureHistory := map[];
    }

    /** `generateSuggestedFixes`: the pushes and the sort leave exactly one
        fix, the one `FixFor` chooses. */
    method GenerateSuggestedFixes(failureType: FailureType, errorMessage: string, failedStep: string, assets: Assets)
      returns (fixes: seq<SuggestedFix>)
      ensures fixes == [FixFor(failureType, errorMessage, failedStep, assets)]
    {
      fixes := [];
      var lowerErrorMessage := Lower(errorMessage);
      if failureType == TimingFailure && Contains(lowerErrorMessage, "outside of the viewport") {
        fixes := fixes + [SuggestedFix(WaitFix, ViewportDescription, None, 0.95)];
      } else if failureType == TimingFailure {
        fixes := fixes + [SuggestedFix(WaitFix, TimeoutDescription, None, 0.8)];
      }
      if failureType == SelectorFailure {
        var related := RelatedLocator(assets.pageObject.locators, failedStep);
        if related.Some? {
          var name := assets.pageObject.locators[related.value].name;
          fixes := fixes + [SuggestedFix(SelectorFix, SelectorFixDescription(name), Some(SelectorFixCode(name)), 0.85)];
        }
      }
      if |fixes| == 0 {
        fixes := fixes + [SuggestedFix(RetryFix, RetryDescription, None, 0.3)];
      }
      var unsorted := fixes;
      fixes := SortDesc(fixes, (f: SuggestedFix) => f.confidence);
      assert |fixes| == 1 && fixes[0] in multiset(unsorted);
    }

    /** `applyFixes` on the in-memory asset document. `parseCode` stands for
        `JSON.parse` of the fix code: `None` when it throws. Returns whether a
        selector was prepended, and the document after the change. */
    method ApplyFixes(analysis: FailureAnalysis, assets: Assets, threshold: real, parseCode: string -> Option<Selector>)
      returns (modified: bool, patched: Assets)
      ensures var fix := FindFirst(analysis.suggestedFixes, (f: SuggestedFix) => Applicable(f, threshold));
              var loc := FindFirst(assets.pageObject.locators, (l: Locator) => NamesStep(l, analysis.failedStep));
              modified <==>
                && fix.Some? && loc.Some?
                && parseCode(analysis.suggestedFixes[fix.value].code.value).Some?
                && !HasSelector(assets.pageObject.locators[loc.value].selectors,
                                parseCode(analysis.suggestedFixes[fix.value].code.value).value)
      ensures !modified ==> patched == assets
      ensures modified ==>
                var fix := FindFirst(analysis.suggestedFixes, (f: SuggestedFix) => Applicable(f, threshold));
                var loc := FindFirst(assets.pageObject.locators, (l: Locator) => NamesStep(l, analysis.failedStep));
                patched == PrependSelector(assets, loc.value, parseCode(analysis.suggestedFixes[fix.value].code.value).value)
    {
      patched := assets;
      var highConfidenceFix := FindFirst(analysis.suggestedFixes, (f: SuggestedFix) => Applicable(f, threshold));
      if highConfidenceFix.None? {
        return false, assets;
      }
      modified := false;
      var locatorToFix := FindFirst(assets.pageObject.locators, (l: Locator) => NamesStep(l, analysis.failedStep));
      if locatorToFix.Some? {
        var newSelector := parseCode(analysis.suggestedFixes[highConfidenceFix.value].code.value);
        if newSelector.None? {
          return false, assets;
        }
        var selectors := assets.pageObject.locators[locatorToFix.value].selectors;
        if !HasSelector(selectors, newSelector.value) {
          patched := PrependSelector(assets, locatorToFix.value, newSelector.value);
          modified := true;
        }
      }
    }

    /** `addToHistory`, without the log-file write. */
    method AddToHistory(testPath: string, analysis: FailureAnalysis)
      modifies this
      ensures failureHistory.Keys == old(failureHistory).Keys + {testPath}
      ensures failureHistory[testPath] ==
                (if testPath in old(failureHistory) then old(failureHistory)[testPath] else []) + [analysis]
      ensures forall p :: p in old(failureHistory) && p != testPath ==> failureHistory[p] == old(failureHistory)[p]
    {
      if testPath !in failureHistory {
        failureHistory := failureHistory[testPath := []];
      }
      failureHistory := failureHistory[testPath := failureHistory[testPath] + [analysis]];
    }

    /** `analyzeFailure`, given the parsed report (`None` when the output is
        not a JSON report) and the parsed asset document. */
    method AnalyzeFailure(testPath: string, rawResult: string, report: Option<Report>, assets: Assets)
      returns (analysis: FailureAnalysis)
      modifies this
      ensures var c := Classify(rawResult, report);
              && analysis.testName == Basename(testPath)
              && analysis.failureType == c.failureType
              && analysis.failedStep == c.failedStep
              && analysis.errorMessage == c.errorMessage
      ensures var c := Classify(rawResult, report);
              analysis.suggestedFixes == [FixFor(c.failureType, c.errorMessage, c.failedStep, assets)]
      ensures failureHistory.Keys == old(failureHistory).Keys + {testPath}
      ensures failureHistory[testPath] ==
                (if testPath in old(failureHistory) then old(failureHistory)[testPath] else []) + [analysis]
      ensures forall p :: p in old(failureHistory) && p != testPath ==> failureHistory[p] == old(failureHistory)[p]
    {
      var c := Classify(rawResult, report);
      var suggestedFixes := GenerateSuggestedFixes(c.failureType, c.errorMessage, c.failedStep, assets);
      analysis := FailureAnalysis(Basename(testPath), c.failureType, c.failedStep, c.errorMessage, suggestedFixes);
      AddToHistory(testPath, analysis);
    }
  }
}
