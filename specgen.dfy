/** Test-spec generation (scripts/generate-spec.ts): the page classes a flow
    needs, the import, declaration and initialisation lines for them, the
    name of the spec file, and the code fragment each test step becomes. */
module SpecGen {
  import opened Common
  import opened Text
  import opened Seqs
  import opened Schema
  import PomGen

  /** The test case the spec is generated for. */
  datatype TestCase = TestCase(name: string, path: string)

  function ClassNames(pages: seq<PageObject>): (r: seq<string>)
    ensures |r| == |pages|
    ensures forall i :: 0 <= i < |pages| ==> r[i] == pages[i].className
  {
    seq(|pages|, i requires 0 <= i < |pages| => pages[i].className)
  }

  /** `uniqueClassNames`: the class names of the main and the additional page
      objects, each once, in order of first occurrence. */
  function UniqueClassNames(assets: Assets): (r: seq<string>)
    ensures NoDups(r)
    ensures r != [] && r[0] == assets.pageObject.className
    ensures forall c :: c in r <==>
              c == assets.pageObject.className || exists k :: 0 <= k < |assets.additionalPageObjects| && assets.additionalPageObjects[k].className == c
  {
    var all := AllClassNames(assets);
    DedupHead(all);
    Dedup(all)
  }

  /** `allPageClasses.map(p => p.className)`. */
  function AllClassNames(assets: Assets): (r: seq<string>)
    ensures r == [assets.pageObject.className] + ClassNames(assets.additionalPageObjects)
  {
    ClassNames([assets.pageObject] + assets.additionalPageObjects)
  }

  /** The unique class names keep the order in which the page list first
      mentions them. */
  lemma UniqueClassNamesOrder(assets: Assets)
    ensures forall i, j :: 0 <= i < j < |UniqueClassNames(assets)| ==>
              FirstIndex(AllClassNames(assets), UniqueClassNames(assets)[i]) < FirstIndex(AllClassNames(assets), UniqueClassNames(assets)[j])
  {
    DedupKeepsFirstOccurrenceOrder(AllClassNames(assets));
  }

  // ---------------------------------------------------------------------
  // Instances and the lines that declare them

  /** The instance variable of a page class: the first character lower-cased. */
  function InstanceName(className: string): (r: string)
    ensures |r| == |className|
    ensures className != [] ==> r[0] == ToLower(className[0]) && r[1..] == className[1..]
  {
    LowerFirst(className)
  }

  /** Capitalising an instance name gives the class name back when the class
      name does not start with a lower-case letter. */
  lemma InstanceNameRoundTrip(className: string)
    requires className == [] || !IsLower(className[0])
    ensures PomGen.Capitalize(InstanceName(className)) == className
  {
    if className != [] && IsUpper(className[0]) {
      assert ToLower(className[0]) as int == className[0] as int + 32;
      assert ToUpper(ToLower(className[0])) == className[0];
    }
  }

  /** Class names that differ only in the case of their first letter share an
      instance name, so their declarations clash. */
  lemma InstanceNamesCanClash()
    ensures InstanceName("HomePage") == InstanceName("homePage")
  {
    assert ToLower('H') == 'h';
  }

  /** Distinct class names that do not start with a lower-case letter get
      distinct instance names. */
  lemma InstanceNamesDistinct(a: string, b: string)
    requires a != b
    requires a == [] || !IsLower(a[0])
    requires b == [] || !IsLower(b[0])
    ensures InstanceName(a) != InstanceName(b)
  {
    InstanceNameRoundTrip(a);
    InstanceNameRoundTrip(b);
  }

  function ImportLine(className: string): string {
    "import { " + className + " } from '../../pages/generated/" + className + "';"
  }

  function DeclarationLine(className: string): string {
    "  let " + InstanceName(className) + ": " + className + ";"
  }

  function InitializationLine(className: string): string {
    "    " + InstanceName(className) + " = new " + className + "(page);"
  }

  /** One line per class name, in order. */
  function Lines(classNames: seq<string>, line: string -> string): (r: seq<string>)
    ensures |r| == |classNames|
    ensures forall i :: 0 <= i < |classNames| ==> r[i] == line(classNames[i])
  {
    seq(|classNames|, i requires 0 <= i < |classNames| => line(classNames[i]))
  }

  /** `pomImports`, `pomDeclarations` and `pomInitializations`. */
  function PomImports(assets: Assets): string {
    Join(Lines(UniqueClassNames(assets), ImportLine), "\n")
  }

  function PomDeclarations(assets: Assets): string {
    Join(Lines(UniqueClassNames(assets), DeclarationLine), "\n")
  }

  function PomInitializations(assets: Assets): string {
    Join(Lines(UniqueClassNames(assets), InitializationLine), "\n")
  }

  /** The lines of a class name without a line break have none either. */
  lemma ImportLineNoBreak(className: string)
    requires '\n' !in className
    ensures '\n' !in ImportLine(className)
  {
  }

  lemma DeclarationLineNoBreak(className: string)
    requires '\n' !in className
    ensures '\n' !in DeclarationLine(className)
  {
    InstanceNameNoBreak(className);
  }

  lemma InitializationLineNoBreak(className: string)
    requires '\n' !in className
    ensures '\n' !in InitializationLine(className)
  {
    InstanceNameNoBreak(className);
  }

  lemma LinesHaveNoBreak(className: string)
    requires '\n' !in className
    ensures '\n' !in ImportLine(className)
    ensures '\n' !in DeclarationLine(className)
    ensures '\n' !in InitializationLine(className)
  {
    ImportLineNoBreak(className);
    DeclarationLineNoBreak(className);
    InitializationLineNoBreak(className);
  }

  lemma InstanceNameNoBreak(className: string)
    requires '\n' !in className
    ensures '\n' !in InstanceName(className)
  {
    if className != [] {
      var inst := InstanceName(className);
      assert inst == [inst[0]] + className[1..];
      assert forall c :: c in className[1..] ==> c in className;
    }
  }

  /** Joining per-class lines and splitting the block at line breaks gives
      the lines back: one line per class, in order. */
  lemma BlockLines(names: seq<string>, line: string -> string)
    requires names != []
    requires forall k :: 0 <= k < |names| ==> '\n' !in line(names[k])
    ensures Split(Join(Lines(names, line), "\n"), '\n') == Lines(names, line)
  {
    SplitJoin(Lines(names, line), '\n');
  }

  /** Each of the three blocks has exactly one line per unique class name, in
      the order of `uniqueClassNames`, provided no class name contains a line
      break. */
  lemma OneLinePerClass(assets: Assets)
    requires forall c :: c in UniqueClassNames(assets) ==> '\n' !in c
    ensures Split(PomImports(assets), '\n') == Lines(UniqueClassNames(assets), ImportLine)
    ensures Split(PomDeclarations(assets), '\n') == Lines(UniqueClassNames(assets), DeclarationLine)
    ensures Split(PomInitializations(assets), '\n') == Lines(UniqueClassNames(assets), InitializationLine)
  {
    var names := UniqueClassNames(assets);
    forall k | 0 <= k < |names|
      ensures '\n' !in ImportLine(names[k]) && '\n' !in DeclarationLine(names[k]) && '\n' !in InitializationLine(names[k])
    {
      assert names[k] in names;
      LinesHaveNoBreak(names[k]);
    }
    BlockLines(names, ImportLine);
    BlockLines(names, DeclarationLine);
    BlockLines(names, InitializationLine);
  }

  // ---------------------------------------------------------------------
  // File name

  /** The length of the run of `sep` characters that `s` starts with. */
  function LeadingRun(s: string, sep: char -> bool): (n: nat)
    ensures n <= |s|
    ensures s != [] && sep(s[0]) ==> n > 0
    decreases |s|
  {
    if s == [] || !sep(s[0]) then 0 else 1 + LeadingRun(s[1..], sep)
  }

  /** The run is maximal: all of it is separators, and so is not the next
      character. */
  lemma {:induction false} LeadingRunIsMaximal(s: string, sep: char -> bool)
    ensures forall i :: 0 <= i < LeadingRun(s, sep) ==> sep(s[i])
    ensures LeadingRun(s, sep) < |s| ==> !sep(s[LeadingRun(s, sep)])
    decreases |s|
  {
    if s != [] && sep(s[0]) {
      LeadingRunIsMaximal(s[1..], sep);
    }
  }

  /** Every maximal run of `sep` characters replaced by one '-'. */
  function CollapseRuns(s: string, sep: char -> bool): string
    decreases |s|
  {
    if s == [] then []
    else if sep(s[0]) then "-" + CollapseRuns(s[LeadingRun(s, sep)..], sep)
    else [s[0]] + CollapseRuns(s[1..], sep)
  }

  /** `replace(/\s+/g, '-')` */
  function DashRuns(s: string): string {
    CollapseRuns(s, IsSpace)
  }

  /** No separator survives, and the result is no longer than the input. */
  lemma {:induction false} CollapseRunsLeavesNoSeparator(s: string, sep: char -> bool)
    requires !sep('-')
    ensures forall c :: c in CollapseRuns(s, sep) ==> !sep(c)
    ensures |CollapseRuns(s, sep)| <= |s|
    decreases |s|
  {
    if s != [] {
      if sep(s[0]) {
        CollapseRunsLeavesNoSeparator(s[LeadingRun(s, sep)..], sep);
      } else {
        CollapseRunsLeavesNoSeparator(s[1..], sep);
      }
    }
  }

  /** The spec file's base name: no white space and no upper-case letter. */
  function TestFileName(testCase: TestCase): (r: string)
    ensures forall c :: c in r ==> !IsSpace(c) && !IsUpper(c)
    ensures |r| <= |testCase.name|
  {
    CollapseRunsLeavesNoSeparator(testCase.name, IsSpace);
    var dashed := DashRuns(testCase.name);
    var r := Lower(dashed);
    assert forall i :: 0 <= i < |r| ==> dashed[i] in dashed;
    r
  }

  /** A name without separators passes through unchanged. */
  lemma {:induction false} CollapseRunsKeepsWords(s: string, sep: char -> bool)
    requires forall i :: 0 <= i < |s| ==> !sep(s[i])
    ensures CollapseRuns(s, sep) == s
    decreases |s|
  {
    if s != [] {
      CollapseRunsKeepsWords(s[1..], sep);
    }
  }

  /** A test-case name without white space only has its letters lower-cased. */
  lemma FileNameOfOneWord(testCase: TestCase)
    requires forall i :: 0 <= i < |testCase.name| ==> !IsSpace(testCase.name[i])
    ensures TestFileName(testCase) == Lower(testCase.name)
  {
    CollapseRunsKeepsWords(testCase.name, IsSpace);
  }

  lemma {:induction false} LeadingRunOfRun(ws: string, b: string, sep: char -> bool)
    requires forall i :: 0 <= i < |ws| ==> sep(ws[i])
    requires b == [] || !sep(b[0])
    ensures LeadingRun(ws + b, sep) == |ws|
    decreases |ws|
  {
    if ws == [] {
      assert ws + b == b;
    } else {
      assert (ws + b)[1..] == ws[1..] + b;
      LeadingRunOfRun(ws[1..], b, sep);
    }
  }

  lemma {:induction false} LeadingRunConcat(x: string, y: string, sep: char -> bool)
    requires LeadingRun(x, sep) < |x|
    ensures LeadingRun(x + y, sep) == LeadingRun(x, sep)
    decreases |x|
  {
    if sep(x[0]) {
      assert (x + y)[1..] == x[1..] + y;
      LeadingRunConcat(x[1..], y, sep);
    }
  }

  lemma RunAtStart(ws: string, b: string, sep: char -> bool)
    requires ws != [] && forall i :: 0 <= i < |ws| ==> sep(ws[i])
    requires b == [] || !sep(b[0])
    ensures CollapseRuns(ws + b, sep) == "-" + CollapseRuns(b, sep)
  {
    LeadingRunOfRun(ws, b, sep);
    assert (ws + b)[|ws|..] == b;
  }

  lemma CollapseWordHead(a: string, tail: string, sep: char -> bool)
    requires a != [] && !sep(a[0])
    ensures CollapseRuns(a + tail, sep) == [a[0]] + CollapseRuns(a[1..] + tail, sep)
  {
    var s := a + tail;
    assert s[0] == a[0] && s[1..] == a[1..] + tail;
  }

  lemma PrependWordChar(a: string, tail: string, b: string, sep: char -> bool)
    requires a != [] && !sep(a[0])
    requires CollapseRuns(a[1..] + tail, sep) == CollapseRuns(a[1..], sep) + "-" + CollapseRuns(b, sep)
    ensures [a[0]] + CollapseRuns(a[1..] + tail, sep) == CollapseRuns(a, sep) + "-" + CollapseRuns(b, sep)
  {
    CollapseWordHead(a, [], sep);
    assert a + [] == a && a[1..] + [] == a[1..];
    var x, y := CollapseRuns(a[1..], sep), CollapseRuns(b, sep);
    assert [a[0]] + (x + "-" + y) == ([a[0]] + x) + "-" + y;
  }

  lemma RunAfterWordChar(a: string, tail: string, b: string, sep: char -> bool)
    requires a != [] && !sep(a[0])
    requires CollapseRuns(a[1..] + tail, sep) == CollapseRuns(a[1..], sep) + "-" + CollapseRuns(b, sep)
    ensures CollapseRuns(a + tail, sep) == CollapseRuns(a, sep) + "-" + CollapseRuns(b, sep)
  {
    CollapseWordHead(a, tail, sep);
    PrependWordChar(a, tail, b, sep);
  }

  lemma CollapseSeparatorHead(a: string, tail: string, sep: char -> bool)
    requires a != [] && sep(a[0]) && LeadingRun(a, sep) < |a|
    ensures CollapseRuns(a + tail, sep) == "-" + CollapseRuns(a[LeadingRun(a, sep)..] + tail, sep)
  {
    var n := LeadingRun(a, sep);
    var s := a + tail;
    LeadingRunConcat(a, tail, sep);
    assert s[0] == a[0];
    assert s[n..] == a[n..] + tail;
  }

  lemma PrependDash(a: string, tail: string, b: string, sep: char -> bool)
    requires a != [] && sep(a[0]) && LeadingRun(a, sep) < |a|
    requires CollapseRuns(a[LeadingRun(a, sep)..] + tail, sep)
      == CollapseRuns(a[LeadingRun(a, sep)..], sep) + "-" + CollapseRuns(b, sep)
    ensures "-" + CollapseRuns(a[LeadingRun(a, sep)..] + tail, sep) == CollapseRuns(a, sep) + "-" + CollapseRuns(b, sep)
  {
    var x, y := CollapseRuns(a[LeadingRun(a, sep)..], sep), CollapseRuns(b, sep);
    assert CollapseRuns(a, sep) == "-" + x;
    assert "-" + (x + "-" + y) == ("-" + x) + "-" + y;
  }

  lemma RunAfterSeparators(a: string, tail: string, b: string, sep: char -> bool)
    requires a != [] && sep(a[0]) && LeadingRun(a, sep) < |a|
    requires CollapseRuns(a[LeadingRun(a, sep)..] + tail, sep)
      == CollapseRuns(a[LeadingRun(a, sep)..], sep) + "-" + CollapseRuns(b, sep)
    ensures CollapseRuns(a + tail, sep) == CollapseRuns(a, sep) + "-" + CollapseRuns(b, sep)
  {
    CollapseSeparatorHead(a, tail, sep);
    PrependDash(a, tail, b, sep);
  }

  lemma LeadingRunStopsBeforeEnd(a: string, sep: char -> bool)
    requires a != [] && !sep(a[|a| - 1])
    ensures LeadingRun(a, sep) < |a|
  {
    LeadingRunIsMaximal(a, sep);
  }

  /** A maximal run of separators between two pieces becomes exactly one '-':
      `a + (ws + b)` collapses to the collapse of `a`, '-', and the collapse of
      `b`. */
  lemma {:induction false} RunBecomesOneDash(a: string, ws: string, b: string, sep: char -> bool)
    requires ws != [] && forall i :: 0 <= i < |ws| ==> sep(ws[i])
    requires a == [] || !sep(a[|a| - 1])
    requires b == [] || !sep(b[0])
    ensures CollapseRuns(a + (ws + b), sep) == CollapseRuns(a, sep) + "-" + CollapseRuns(b, sep)
    decreases |a|
  {
    if a == [] {
      assert a + (ws + b) == ws + b;
      RunAtStart(ws, b, sep);
    } else if !sep(a[0]) {
      RunBecomesOneDash(a[1..], ws, b, sep);
      RunAfterWordChar(a, ws + b, b, sep);
    } else {
      LeadingRunStopsBeforeEnd(a, sep);
      RunBecomesOneDash(a[LeadingRun(a, sep)..], ws, b, sep);
      RunAfterSeparators(a, ws + b, b, sep);
    }
  }

  /** In the file name, a maximal white-space run between two pieces becomes
      exactly one '-'. */
  lemma WhitespaceRunBecomesOneDash(a: string, ws: string, b: string)
    requires ws != [] && forall i :: 0 <= i < |ws| ==> IsSpace(ws[i])
    requires a == [] || !IsSpace(a[|a| - 1])
    requires b == [] || !IsSpace(b[0])
    ensures DashRuns(a + ws + b) == DashRuns(a) + "-" + DashRuns(b)
  {
    assert a + ws + b == a + (ws + b);
    RunBecomesOneDash(a, ws, b, IsSpace);
  }

  // ---------------------------------------------------------------------
  // Test steps

  /** A step is used only when its `page` is present, non-empty and one of
      the unique class names. */
  predicate HasKnownPage(step: TestStep, classNames: seq<string>) {
    step.page.Some? && step.page.value != "" && step.page.value in classNames
  }

  datatype Dispatch = NavigateStep | ExpectStep | CallStep

  /** Lines 92-98, in their order of precedence. */
  function DispatchOf(action: string): (d: Dispatch)
    ensures d == NavigateStep <==> Contains(Lower(action), "navigate")
    ensures d == ExpectStep <==> !Contains(Lower(action), "navigate") && StartsWith(action, "expect")
  {
    if Contains(Lower(action), "navigate") then NavigateStep
    else if StartsWith(action, "expect") then ExpectStep
    else CallStep
  }

  /** The parameters, each already JSON text, joined by ", ". */
  function ParamsString(step: TestStep): string {
    Join(step.params, ", ")
  }

  /** The statement a used step becomes. */
  function StepCode(step: TestStep, instance: string, testCase: TestCase): (r: string)
    ensures StartsWith(r, "await ") && EndsWith(r, ");")
    ensures Contains(Lower(step.action), "navigate") ==>
              r == "await " + instance + ".navigate(" + JsonQuote(testCase.path) + ");"
    ensures !Contains(Lower(step.action), "navigate") && StartsWith(step.action, "expect") ==>
              r == "await expect(page).toHaveURL(new RegExp(" + Join(step.params, ", ") + "));"
    ensures !Contains(Lower(step.action), "navigate") && !StartsWith(step.action, "expect") ==>
              r == "await " + instance + "." + step.action + "(" + Join(step.params, ", ") + ");"
  {
    match DispatchOf(step.action)
    case NavigateStep => "await " + instance + ".navigate(" + JsonQuote(testCase.path) + ");"
    case ExpectStep => "await expect(page).toHaveURL(new RegExp(" + ParamsString(step) + "));"
    case CallStep => "await " + instance + "." + step.action + "(" + ParamsString(step) + ");"
  }

  const OmittedPrefix: string := "// Paso omitido por 'page' inválida: "
  const StepHeaderPrefix: string := "\n    // Paso "

  /** The rest of the "Paso" comment: the action and the page. */
  function StepTitle(step: TestStep): string
    requires step.page.Some?
  {
    ": " + step.action + " en la página " + step.page.value
  }

  /** The fragment for step number `index`. `stepJson` is the step's
      `JSON.stringify` text, which only an omitted step shows. */
  function StepFragment(index: nat, step: TestStep, classNames: seq<string>, testCase: TestCase, stepJson: string): string {
    if !HasKnownPage(step, classNames) then OmittedPrefix + stepJson
    else
      var code := StepCode(step, InstanceName(step.page.value), testCase);
      if index > 0 then
        StepHeaderPrefix + NatToString(index + 1) + StepTitle(step) + "\n    " + code
      else code
  }

  /** `specSteps` before the final join: one fragment per step, in order. */
  function SpecFragments(assets: Assets, testCase: TestCase, stepJson: TestStep -> string): (r: seq<string>)
    ensures |r| == |assets.testSteps|
    ensures forall i :: 0 <= i < |r| ==>
              r[i] == StepFragment(i, assets.testSteps[i], UniqueClassNames(assets), testCase, stepJson(assets.testSteps[i]))
  {
    var names := UniqueClassNames(assets);
    seq(|assets.testSteps|, i requires 0 <= i < |assets.testSteps| =>
      StepFragment(i, assets.testSteps[i], names, testCase, stepJson(assets.testSteps[i])))
  }

  function SpecSteps(assets: Assets, testCase: TestCase, stepJson: TestStep -> string): string {
    Join(SpecFragments(assets, testCase, stepJson), "\n    ")
  }

  /** A step naming no known page becomes a comment: it calls nothing. */
  lemma OmittedStepIsComment(index: nat, step: TestStep, classNames: seq<string>, testCase: TestCase, stepJson: string)
    requires !HasKnownPage(step, classNames)
    ensures StartsWith(StepFragment(index, step, classNames, testCase, stepJson), "//")
    ensures !StartsWith(StepFragment(index, step, classNames, testCase, stepJson), "await")
  {
    var f := StepFragment(index, step, classNames, testCase, stepJson);
    assert f == OmittedPrefix + stepJson;
    assert f[0] == '/' && f[1] == '/';
    assert f[..2] == "//";
  }

  /** A fragment opens with the "Paso n" comment exactly when its step is
      used and is not the first one. */
  lemma StepHeaderIffUsedAndNotFirst(index: nat, step: TestStep, classNames: seq<string>, testCase: TestCase, stepJson: string)
    ensures StartsWith(StepFragment(index, step, classNames, testCase, stepJson), StepHeaderPrefix) <==>
            index > 0 && HasKnownPage(step, classNames)
  {
    var f := StepFragment(index, step, classNames, testCase, stepJson);
    if !HasKnownPage(step, classNames) {
      assert f == OmittedPrefix + stepJson;
      assert f[0] == '/';
    } else if index == 0 {
      assert f[0] == 'a';
    }
  }

  /** The "Paso" comment of a used step after the first carries its number
      counted from one: the digits after the prefix read back as `index + 1`.
      The step's own statement ends the fragment, on a line of its own. */
  lemma StepHeaderContents(index: nat, step: TestStep, classNames: seq<string>, testCase: TestCase, stepJson: string)
    requires index > 0 && HasKnownPage(step, classNames)
    ensures var f := StepFragment(index, step, classNames, testCase, stepJson);
            && StartsWith(f, StepHeaderPrefix)
            && (var rest := f[|StepHeaderPrefix|..]; DigitsValue(rest[..DigitRunLength(rest)]) == index + 1)
            && EndsWith(f, "\n    " + StepCode(step, InstanceName(step.page.value), testCase))
  {
    NumberedText(StepHeaderPrefix, index + 1, StepTitle(step), "\n    ", StepCode(step, InstanceName(step.page.value), testCase));
  }

  /** A number printed between a prefix and a text starting with ':' reads
      back after the prefix, and the code after the separator ends the
      whole. */
  lemma NumberedText(prefix: string, n: nat, title: string, sep: string, code: string)
    requires title != [] && title[0] == ':'
    ensures var f := prefix + NatToString(n) + title + sep + code;
            && StartsWith(f, prefix)
            && (var rest := f[|prefix|..]; DigitsValue(rest[..DigitRunLength(rest)]) == n)
            && EndsWith(f, sep + code)
  {
    var number := NatToString(n);
    var f := prefix + number + title + sep + code;
    var rest := f[|prefix|..];
    assert rest == number + (title + sep + code);
    DigitRunOfConcat(number, title + sep + code);
    assert rest[..|number|] == number;
    NatToStringRoundTrip(n);
    assert f[..|prefix|] == prefix;
    assert f[|f| - |sep + code|..] == sep + code;
  }

  /** A navigation step ignores its parameters and goes to the test case's
      path. */
  lemma NavigateIgnoresParams(step: TestStep, params: seq<string>, instance: string, testCase: TestCase)
    requires Contains(Lower(step.action), "navigate")
    ensures StepCode(step.(params := params), instance, testCase) == StepCode(step, instance, testCase)
    ensures StepCode(step, instance, testCase) == "await " + instance + ".navigate(" + JsonQuote(testCase.path) + ");"
  {
  }

  /** A used step calls a method on an instance that the spec declares. */
  lemma UsedStepHasDeclaredInstance(assets: Assets, i: nat)
    requires i < |assets.testSteps| && HasKnownPage(assets.testSteps[i], UniqueClassNames(assets))
    ensures var page := assets.testSteps[i].page.value;
            DeclarationLine(page) in Lines(UniqueClassNames(assets), DeclarationLine)
  {
    var names := UniqueClassNames(assets);
    var page := assets.testSteps[i].page.value;
    var k :| 0 <= k < |names| && names[k] == page;
    assert Lines(names, DeclarationLine)[k] == DeclarationLine(page);
  }
}
