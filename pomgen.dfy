/** Page-object generation (scripts/generate-pom.ts): which methods a page
    object gets for each locator, how each selector becomes one line of the
    `locators` array, the checks on a page definition, and the list of pages
    a definition file yields. The prose of the generated method bodies is not
    modelled; a method is identified by its name. */
module PomGen {
  import opened Common
  import opened Text
  import opened Seqs
  import opened Schema

  /** `capitalize`: the first character upper-cased, the rest unchanged. */
  function Capitalize(s: string): (r: string)
    ensures |r| == |s|
    ensures s != [] ==> r[0] == ToUpper(s[0]) && r[1..] == s[1..]
  {
    UpperFirst(s)
  }

  /** Lower-casing the first character undoes `capitalize` on a name that
      does not start with an upper-case letter. */
  lemma CapitalizeRoundTrip(s: string)
    requires s == [] || !IsUpper(s[0])
    ensures LowerFirst(Capitalize(s)) == s
  {
    if s != [] && IsLower(s[0]) {
      assert ToUpper(s[0]) as int == s[0] as int - 32;
      assert ToLower(ToUpper(s[0])) == s[0];
    }
  }

  // ---------------------------------------------------------------------
  // Element description

  /** `name.replace(/([A-Z])/g, ' $1')` */
  function SpaceBeforeUpper(s: string): string
    decreases |s|
  {
    if s == [] then []
    else
      var c := s[|s| - 1];
      SpaceBeforeUpper(s[..|s| - 1]) + (if IsUpper(c) then [' ', c] else [c])
  }

  /** The element description used in the generated comments and logs. */
  function Describe(name: string): (r: string)
    ensures r != [] ==> !IsSpace(r[0]) && !IsSpace(r[|r| - 1])
  {
    Trim(SpaceBeforeUpper(name))
  }

  /** `s` without its ' ' characters. */
  function Unspace(s: string): (r: string)
    ensures ' ' !in r
    decreases |s|
  {
    if s == [] then []
    else Unspace(s[..|s| - 1]) + (if s[|s| - 1] == ' ' then [] else [s[|s| - 1]])
  }

  lemma {:induction false} UnspaceConcat(a: string, b: string)
    ensures Unspace(a + b) == Unspace(a) + Unspace(b)
    decreases |b|
  {
    if b != [] {
      assert (a + b)[..|a + b| - 1] == a + b[..|b| - 1];
      var last := b[|b| - 1];
      var piece := if last == ' ' then [] else [last];
      assert (a + b)[|a + b| - 1] == last;
      assert Unspace(a + b) == Unspace(a + b[..|b| - 1]) + piece;
      assert Unspace(b) == Unspace(b[..|b| - 1]) + piece;
      UnspaceConcat(a, b[..|b| - 1]);
    } else {
      assert a + b == a;
    }
  }

  lemma {:induction false} UnspaceBlank(s: string)
    requires forall i :: 0 <= i < |s| ==> s[i] == ' '
    ensures Unspace(s) == []
    decreases |s|
  {
    if s != [] {
      UnspaceBlank(s[..|s| - 1]);
    }
  }

  lemma {:induction false} UnspaceNoBlank(s: string)
    requires ' ' !in s
    ensures Unspace(s) == s
    decreases |s|
  {
    if s != [] {
      assert s[|s| - 1] in s;
      UnspaceNoBlank(s[..|s| - 1]);
    }
  }

  /** Removing the spaces from what one character becomes gives the
      character back. */
  lemma UnspacePiece(c: char)
    requires c != ' '
    ensures Unspace(if IsUpper(c) then [' ', c] else [c]) == [c]
  {
    if IsUpper(c) {
      assert [' ', c][..1] == [' '] && [' '][..0] == [];
      assert Unspace([' ']) == [];
    } else {
      assert [c][..0] == [];
    }
  }

  lemma SpaceBeforeUpperSnoc(p: string, c: char)
    ensures SpaceBeforeUpper(p + [c]) == SpaceBeforeUpper(p) + (if IsUpper(c) then [' ', c] else [c])
  {
    assert (p + [c])[..|p|] == p;
  }

  /** Removing the inserted spaces gives the name back. */
  lemma {:induction false} SpaceBeforeUpperUnspace(s: string)
    requires ' ' !in s
    ensures Unspace(SpaceBeforeUpper(s)) == s
    decreases |s|
  {
    if s != [] {
      var p := s[..|s| - 1];
      var c := s[|s| - 1];
      assert s == p + [c];
      assert c in s;
      assert ' ' !in p by {
        assert forall x :: x in p ==> x in s;
      }
      SpaceBeforeUpperUnspace(p);
      SpaceBeforeUpperSnoc(p, c);
      UnspaceConcat(SpaceBeforeUpper(p), if IsUpper(c) then [' ', c] else [c]);
      UnspacePiece(c);
    }
  }

  /** The only characters inserted are spaces. */
  lemma {:induction false} SpaceBeforeUpperChars(s: string)
    ensures forall c :: c in SpaceBeforeUpper(s) ==> c == ' ' || c in s
    decreases |s|
  {
    if s != [] {
      var p := s[..|s| - 1];
      SpaceBeforeUpperChars(p);
      assert forall c :: c in p ==> c in s;
    }
  }

  /** The white space `trim` removes in front is made of ' ' when that is the
      only white space of the string. */
  lemma TrimmedFrontIsBlank(x: string)
    requires forall c :: c in x && IsSpace(c) ==> c == ' '
    ensures var front := x[..LeadingSpaces(x)];
      forall i :: 0 <= i < |front| ==> front[i] == ' '
  {
    var front := x[..LeadingSpaces(x)];
    forall i | 0 <= i < |front| ensures front[i] == ' ' {
      assert front[i] == x[i] && x[i] in x;
    }
  }

  /** Likewise for the white space `trim` removes at the back. */
  lemma TrimmedBackIsBlank(x: string)
    requires forall c :: c in x && IsSpace(c) ==> c == ' '
    ensures var t := x[LeadingSpaces(x)..];
      var back := t[|t| - TrailingSpaces(t)..];
      forall i :: 0 <= i < |back| ==> back[i] == ' '
  {
    var t := x[LeadingSpaces(x)..];
    var back := t[|t| - TrailingSpaces(t)..];
    forall i | 0 <= i < |back| ensures back[i] == ' ' {
      assert back[i] == t[|t| - TrailingSpaces(t) + i];
      assert back[i] in x;
    }
  }

  lemma UnspaceAroundBlanks(front: string, middle: string, back: string)
    requires forall i :: 0 <= i < |front| ==> front[i] == ' '
    requires forall i :: 0 <= i < |back| ==> back[i] == ' '
    ensures Unspace(front + (middle + back)) == Unspace(middle)
  {
    UnspaceConcat(front, middle + back);
    UnspaceConcat(middle, back);
    UnspaceBlank(front);
    UnspaceBlank(back);
  }

  /** `trim` cuts a string into what it removes in front, what it keeps, and
      what it removes at the back. */
  lemma TrimPieces(x: string)
    ensures var t := x[LeadingSpaces(x)..];
      x == x[..LeadingSpaces(x)] + (Trim(x) + t[|t| - TrailingSpaces(t)..])
  {
    var lead := LeadingSpaces(x);
    var t := x[lead..];
    var k := |t| - TrailingSpaces(t);
    assert Trim(x) == t[..k];
    SplitAt(t, k);
    SplitAt(x, lead);
  }

  lemma SplitAt(s: string, k: nat)
    requires k <= |s|
    ensures s == s[..k] + s[k..]
  {
  }

  /** Trimming a string whose only white space is ' ' removes nothing but
      ' ' characters. */
  lemma UnspaceTrim(x: string)
    requires forall c :: c in x && IsSpace(c) ==> c == ' '
    ensures Unspace(Trim(x)) == Unspace(x)
  {
    var t := x[LeadingSpaces(x)..];
    var front, back := x[..LeadingSpaces(x)], t[|t| - TrailingSpaces(t)..];
    TrimmedFrontIsBlank(x);
    TrimmedBackIsBlank(x);
    TrimPieces(x);
    UnspaceAroundBlanks(front, Trim(x), back);
  }

  /** The description differs from an element name only by the spaces it
      inserts: removing them gives the name back. */
  lemma DescribeOnlyAddsSpaces(name: string)
    requires forall c :: c in name ==> !IsSpace(c)
    ensures Unspace(Describe(name)) == name
  {
    SpaceBeforeUpperChars(name);
    assert ' ' !in name by {
      assert IsSpace(' ');
    }
    SpaceBeforeUpperUnspace(name);
    UnspaceTrim(SpaceBeforeUpper(name));
  }

  // ---------------------------------------------------------------------
  // Locator lines

  /** The selector types that become `this.page.<type>('<value>'<options>)`. */
  const GetByKinds: seq<string> := ["getByRole", "getByLabel", "getByPlaceholder", "getByText"]

  const LineIndent: string := "      this.page."

  /** `, <options JSON>` when the selector has truthy options. */
  function OptionsSuffix(options: Option<string>): string {
    if options.Some? then ", " + options.value else ""
  }

  /** One line of `buildLocatorsArray`: a `getBy…` call with the value in
      single quotes followed by the options, or a `locator` call with the
      value in backquotes. */
  function LocatorLine(s: Selector): (r: string)
    ensures s.kind in GetByKinds ==>
      r == LineIndent + s.kind + "('" + s.value + "'" + OptionsSuffix(s.options) + ")"
    ensures s.kind !in GetByKinds ==> r == LineIndent + "locator(`" + s.value + "`)"
  {
    if s.kind in GetByKinds then LineIndent + s.kind + "('" + s.value + "'" + OptionsSuffix(s.options) + ")"
    else LineIndent + "locator(`" + s.value + "`)"
  }

  /** The argument of a `this.page.<call>(` line that opens with quote `q`:
      the text up to the next `q`. */
  function QuotedArgument(line: string, call: string, q: char): Option<string> {
    var head := LineIndent + call + "(" + [q];
    if StartsWith(line, head) then
      var rest := line[|head|..];
      Some(rest[..IndexOf(rest, q)])
    else None
  }

  /** Reading a line back gives the selector's value, provided the value does
      not contain its own quote. */
  lemma LocatorLineRoundTrip(s: Selector)
    requires s.kind in GetByKinds ==> '\'' !in s.value
    requires s.kind !in GetByKinds ==> '`' !in s.value
    ensures s.kind in GetByKinds ==> QuotedArgument(LocatorLine(s), s.kind, '\'') == Some(s.value)
    ensures s.kind !in GetByKinds ==> QuotedArgument(LocatorLine(s), "locator", '`') == Some(s.value)
  {
    var line := LocatorLine(s);
    var q := if s.kind in GetByKinds then '\'' else '`';
    var call := if s.kind in GetByKinds then s.kind else "locator";
    var head := LineIndent + call + "(" + [q];
    var tail := if s.kind in GetByKinds then "'" + OptionsSuffix(s.options) + ")" else "`)";
    assert line == head + (s.value + tail);
    var rest := line[|head|..];
    assert rest == s.value + tail;
    assert rest[|s.value|] == q;
    assert rest[..|s.value|] == s.value;
    IndexOfAt(rest, q, |s.value|);
  }

  /** `css`, `locator` and any other type ignore the options. */
  lemma NonGetByIgnoresOptions(s: Selector, options: Option<string>)
    requires s.kind !in GetByKinds
    ensures LocatorLine(s.(options := options)) == LocatorLine(s)
  {
  }

  /** A `getBy…` selector with options carries `, <options>` just before the
      closing parenthesis of the line it would have without them. */
  lemma GetByShowsOptions(s: Selector)
    requires s.kind in GetByKinds && s.options.Some?
    ensures var plain := LocatorLine(s.(options := None));
            LocatorLine(s) == plain[..|plain| - 1] + ", " + s.options.value + ")"
  {
    var plain := LocatorLine(s.(options := None));
    assert plain == LineIndent + s.kind + "('" + s.value + "'" + ")";
    assert plain[..|plain| - 1] == LineIndent + s.kind + "('" + s.value + "'";
  }

  function LocatorLines(selectors: seq<Selector>): (r: seq<string>)
    ensures |r| == |selectors|
    ensures forall i :: 0 <= i < |selectors| ==> r[i] == LocatorLine(selectors[i])
  {
    seq(|selectors|, i requires 0 <= i < |selectors| => LocatorLine(selectors[i]))
  }

  const LocatorsOpen: string := "    const locators = ["
  const LocatorsClose: string := "    ];"

  /** `buildLocatorsArray`: the locator lines joined by `,\n` inside the
      `locators` array declaration. */
  function BuildLocatorsArray(selectors: seq<Selector>): string {
    LocatorsOpen + "\n" + Join(LocatorLines(selectors), ",\n") + "\n" + LocatorsClose
  }

  /** Each line followed by a comma, except the last. */
  function WithCommas(lines: seq<string>): (r: seq<string>)
    ensures |r| == |lines|
    ensures forall i :: 0 <= i < |lines| ==> r[i] == if i < |lines| - 1 then lines[i] + "," else lines[i]
  {
    seq(|lines|, i requires 0 <= i < |lines| => if i < |lines| - 1 then lines[i] + "," else lines[i])
  }

  lemma {:induction false} JoinWithCommas(lines: seq<string>)
    ensures Join(lines, ",\n") == Join(WithCommas(lines), "\n")
    decreases |lines|
  {
    if |lines| > 1 {
      JoinWithCommas(lines[1..]);
      assert WithCommas(lines)[1..] == WithCommas(lines[1..]);
    }
  }

  /** Splitting `a`, the lines `m` and `b`, joined by line breaks, gives them
      back when none of them holds a line break. */
  lemma FramedSplit(a: string, m: seq<string>, b: string)
    requires m != [] && '\n' !in a && '\n' !in b
    requires forall k :: 0 <= k < |m| ==> '\n' !in m[k]
    ensures Split(a + "\n" + Join(m, "\n") + "\n" + b, '\n') == [a] + m + [b]
  {
    var all := [a] + m + [b];
    JoinFramed(a, m, b);
    assert forall k :: 0 <= k < |all| ==> '\n' !in all[k] by {
      forall k | 0 <= k < |all| ensures '\n' !in all[k] {
        if 0 < k < |all| - 1 {
          assert all[k] == m[k - 1];
        }
      }
    }
    SplitJoin(all, '\n');
  }

  /** `a + "\n" + Join(m, "\n") + "\n" + b` is the join of `[a] + m + [b]`. */
  lemma JoinFramed(a: string, m: seq<string>, b: string)
    requires m != []
    ensures a + "\n" + Join(m, "\n") + "\n" + b == Join([a] + m + [b], "\n")
  {
    var all := [a] + m + [b];
    assert all[1..] == m + [b];
    assert Join(all, "\n") == a + "\n" + Join(m + [b], "\n");
    JoinSnoc(m, b);
  }

  lemma {:induction false} JoinSnoc(m: seq<string>, b: string)
    requires m != []
    ensures Join(m + [b], "\n") == Join(m, "\n") + "\n" + b
    decreases |m|
  {
    if |m| > 1 {
      assert (m + [b])[1..] == m[1..] + [b];
      JoinSnoc(m[1..], b);
    }
  }

  /** A line of a selector whose texts have no line break has none. */
  lemma LocatorLineNoBreak(s: Selector)
    requires '\n' !in s.kind && '\n' !in s.value && (s.options.Some? ==> '\n' !in s.options.value)
    ensures '\n' !in LocatorLine(s)
  {
  }

  /** The array declaration has one line per selector, in order, each but
      the last followed by a comma, between the opening and the closing line;
      provided no selector text holds a line break. */
  lemma BuildLocatorsArrayLines(selectors: seq<Selector>)
    requires forall i :: 0 <= i < |selectors| ==>
               '\n' !in selectors[i].kind && '\n' !in selectors[i].value
               && (selectors[i].options.Some? ==> '\n' !in selectors[i].options.value)
    ensures selectors != [] ==>
              Split(BuildLocatorsArray(selectors), '\n') == [LocatorsOpen] + WithCommas(LocatorLines(selectors)) + [LocatorsClose]
    ensures selectors == [] ==> Split(BuildLocatorsArray(selectors), '\n') == [LocatorsOpen, "", LocatorsClose]
  {
    var lines := LocatorLines(selectors);
    if selectors != [] {
      JoinWithCommas(lines);
      var commas := WithCommas(lines);
      forall k | 0 <= k < |commas| ensures '\n' !in commas[k] {
        LocatorLineNoBreak(selectors[k]);
      }
      FramedSplit(LocatorsOpen, commas, LocatorsClose);
    } else {
      assert lines == [] && Join(lines, ",\n") == "";
      assert Join(["", LocatorsClose], "\n") == "" + "\n" + LocatorsClose;
      assert BuildLocatorsArray(selectors) == Join([LocatorsOpen, "", LocatorsClose], "\n");
      SplitJoin([LocatorsOpen, "", LocatorsClose], '\n');
    }
  }

  // ---------------------------------------------------------------------
  // The method plan of one element

  function WaitForName(element: string): string { "waitFor" + element + "Visible" }
  function GetTextName(element: string): string { "get" + element + "Text" }
  function AssertTextName(element: string): string { "assert" + element + "Text" }
  function IsVisibleName(element: string): string { "is" + element + "Visible" }

  /** The actions that have a method template, in the order the test-step
      scan checks them. */
  const ActionVerbs: seq<string> := ["click", "fill", "check", "select", "clear", "getValue"]

  /** A step concerns the locator when its lower-cased action contains the
      lower-cased locator name. */
  function RelevantSteps(steps: seq<TestStep>, loc: Locator): seq<TestStep> {
    Filter(steps, (step: TestStep) => Contains(Lower(step.action), Lower(loc.name)))
  }

  /** `allRequiredActions.add(verb)` when the action starts with the verb. */
  function AddVerb(required: seq<string>, action: string, verb: string): seq<string> {
    if StartsWith(action, verb) && verb !in required then required + [verb] else required
  }

  lemma AddVerbMember(required: seq<string>, action: string, verb: string, x: string)
    ensures x in AddVerb(required, action, verb) <==> x in required || (x == verb && StartsWith(action, verb))
  {
  }

  lemma AddVerbDistinct(required: seq<string>, action: string, verb: string)
    requires NoDups(required)
    ensures NoDups(AddVerb(required, action, verb))
  {
  }

  /** The six tests the scan makes on one relevant step. */
  function AddStepVerbs(required: seq<string>, action: string): seq<string> {
    AddVerb(AddVerb(AddVerb(AddVerb(AddVerb(AddVerb(required, action, "click"), action, "fill"), action, "check"),
      action, "select"), action, "clear"), action, "getValue")
  }

  /** The scan of one step adds exactly the template verbs its action starts
      with. */
  lemma AddStepVerbsMember(required: seq<string>, action: string, x: string)
    ensures x in AddStepVerbs(required, action) <==> x in required || (x in ActionVerbs && StartsWith(action, x))
  {
    var r1 := AddVerb(required, action, "click");
    var r2 := AddVerb(r1, action, "fill");
    var r3 := AddVerb(r2, action, "check");
    var r4 := AddVerb(r3, action, "select");
    var r5 := AddVerb(r4, action, "clear");
    AddVerbMember(required, action, "click", x);
    AddVerbMember(r1, action, "fill", x);
    AddVerbMember(r2, action, "check", x);
    AddVerbMember(r3, action, "select", x);
    AddVerbMember(r4, action, "clear", x);
    AddVerbMember(r5, action, "getValue", x);
  }

  /** Some relevant step's action starts with `verb`. */
  predicate SomeStepStartsWith(relevant: seq<TestStep>, verb: string) {
    exists i :: 0 <= i < |relevant| && StartsWith(relevant[i].action, verb)
  }

  /** `allRequiredActions` after the scan: the locator's own actions, then the
      verbs the relevant steps start with, each once, in insertion order. */
  function RequiredActions(actions: seq<string>, relevant: seq<TestStep>): seq<string>
    decreases |relevant|
  {
    if relevant == [] then Dedup(actions)
    else AddStepVerbs(RequiredActions(actions, relevant[..|relevant| - 1]), relevant[|relevant| - 1].action)
  }

  lemma SomeStepSnoc(p: seq<TestStep>, step: TestStep, x: string)
    ensures SomeStepStartsWith(p + [step], x) <==> SomeStepStartsWith(p, x) || StartsWith(step.action, x)
  {
    var q := p + [step];
    if SomeStepStartsWith(p, x) {
      var i :| 0 <= i < |p| && StartsWith(p[i].action, x);
      assert q[i] == p[i];
    }
    if SomeStepStartsWith(q, x) && !StartsWith(step.action, x) {
      var i :| 0 <= i < |q| && StartsWith(q[i].action, x);
      assert q[i] == p[i];
    }
    assert q[|p|] == step;
  }

  /** Like a `Set`, the required actions hold no duplicates. */
  lemma {:induction false} RequiredActionsDistinct(actions: seq<string>, relevant: seq<TestStep>)
    ensures NoDups(RequiredActions(actions, relevant))
    decreases |relevant|
  {
    if relevant != [] {
      var required := RequiredActions(actions, relevant[..|relevant| - 1]);
      RequiredActionsDistinct(actions, relevant[..|relevant| - 1]);
      AddStepVerbsDistinct(required, relevant[|relevant| - 1].action);
    }
  }

  lemma AddStepVerbsDistinct(required: seq<string>, action: string)
    requires NoDups(required)
    ensures NoDups(AddStepVerbs(required, action))
  {
    var r1 := AddVerb(required, action, "click");
    var r2 := AddVerb(r1, action, "fill");
    var r3 := AddVerb(r2, action, "check");
    var r4 := AddVerb(r3, action, "select");
    var r5 := AddVerb(r4, action, "clear");
    AddVerbDistinct(required, action, "click");
    AddVerbDistinct(r1, action, "fill");
    AddVerbDistinct(r2, action, "check");
    AddVerbDistinct(r3, action, "select");
    AddVerbDistinct(r4, action, "clear");
    AddVerbDistinct(r5, action, "getValue");
  }

  lemma RequiredActionsSnoc(actions: seq<string>, p: seq<TestStep>, last: TestStep)
    ensures RequiredActions(actions, p + [last]) == AddStepVerbs(RequiredActions(actions, p), last.action)
  {
    assert (p + [last])[..|p|] == p;
  }

  lemma RequiredActionsMemberStep(actions: seq<string>, relevant: seq<TestStep>, x: string)
    requires relevant != []
    requires var p := relevant[..|relevant| - 1];
      x in RequiredActions(actions, p) <==> x in actions || (x in ActionVerbs && SomeStepStartsWith(p, x))
    ensures x in RequiredActions(actions, relevant) <==>
            x in actions || (x in ActionVerbs && SomeStepStartsWith(relevant, x))
  {
    var p, last := relevant[..|relevant| - 1], relevant[|relevant| - 1];
    assert x in RequiredActions(actions, relevant) <==>
           x in RequiredActions(actions, p) || (x in ActionVerbs && StartsWith(last.action, x)) by {
      assert relevant == p + [last];
      RequiredActionsSnoc(actions, p, last);
      AddStepVerbsMember(RequiredActions(actions, p), last.action, x);
    }
    assert SomeStepStartsWith(relevant, x) <==> SomeStepStartsWith(p, x) || StartsWith(last.action, x) by {
      assert relevant == p + [last];
      SomeStepSnoc(p, last, x);
    }
  }

  /** An action is required exactly when the locator lists it or it is a
      verb with a template that some relevant step starts with. */
  lemma {:induction false} RequiredActionsMember(actions: seq<string>, relevant: seq<TestStep>, x: string)
    ensures x in RequiredActions(actions, relevant) <==>
            x in actions || (x in ActionVerbs && SomeStepStartsWith(relevant, x))
    decreases |relevant|
  {
    if relevant != [] {
      RequiredActionsMember(actions, relevant[..|relevant| - 1], x);
      RequiredActionsMemberStep(actions, relevant, x);
    }
  }

  predicate IsOneOfAssertion(action: string) {
    StartsWith(action, "assert") && EndsWith(action, "OneOf")
  }

  /** The `assert…OneOf` methods the relevant steps ask for, in step order. */
  function OneOfNames(relevant: seq<TestStep>): seq<string>
    decreases |relevant|
  {
    if relevant == [] then []
    else
      var action := relevant[|relevant| - 1].action;
      OneOfNames(relevant[..|relevant| - 1]) + OneOfStep(action)
  }

  function OneOfStep(action: string): seq<string> {
    if IsOneOfAssertion(action) then [action] else []
  }

  lemma {:induction false} OneOfNamesMembers(relevant: seq<TestStep>)
    ensures forall x :: x in OneOfNames(relevant) ==>
              IsOneOfAssertion(x) && exists i :: 0 <= i < |relevant| && relevant[i].action == x
    ensures forall i :: 0 <= i < |relevant| && IsOneOfAssertion(relevant[i].action) ==> relevant[i].action in OneOfNames(relevant)
    decreases |relevant|
  {
    if relevant != [] {
      var p := relevant[..|relevant| - 1];
      OneOfNamesMembers(p);
      assert forall i :: 0 <= i < |p| ==> p[i] == relevant[i];
    }
  }

  /** `<action><Element>` for each required action that has a template;
      any other action yields empty code and no method. */
  function ActionMethodNames(required: seq<string>, element: string): seq<string>
    decreases |required|
  {
    if required == [] then []
    else
      var action := required[|required| - 1];
      ActionMethodNames(required[..|required| - 1], element) + (if action in ActionVerbs then [action + element] else [])
  }

  /** Each action method name is a required verb with a template followed by
      the element name. */
  lemma {:induction false} ActionMethodNamesShape(required: seq<string>, element: string)
    ensures forall x :: x in ActionMethodNames(required, element) ==>
              |element| <= |x| && x[..|x| - |element|] in ActionVerbs && x[..|x| - |element|] in required
    decreases |required|
  {
    if required != [] {
      var p := required[..|required| - 1];
      var action := required[|required| - 1];
      ActionMethodNamesShape(p, element);
      assert (action + element)[..|action + element| - |element|] == action;
      assert forall v :: v in p ==> v in required;
    }
  }

  /** Every required verb with a template gets its method. */
  lemma {:induction false} ActionMethodNamesCover(required: seq<string>, element: string)
    ensures forall v :: v in required && v in ActionVerbs ==> v + element in ActionMethodNames(required, element)
    decreases |required|
  {
    if required != [] {
      var p := required[..|required| - 1];
      ActionMethodNamesCover(p, element);
      assert forall v :: v in required ==> v in p || v == required[|required| - 1];
    }
  }

  function TextMethodNames(loc: Locator, element: string): seq<string> {
    if loc.actions == [] then [GetTextName(element), AssertTextName(element), IsVisibleName(element)] else []
  }

  /** Every method `generateMethodsForElement` offers to `addMethod`, in
      order, leaving out those with empty code. */
  function CandidateNames(loc: Locator, steps: seq<TestStep>): seq<string> {
    var element := Capitalize(loc.name);
    var relevant := RelevantSteps(steps, loc);
    [WaitForName(element)] + TextMethodNames(loc, element) + OneOfNames(relevant)
    + ActionMethodNames(RequiredActions(loc.actions, relevant), element)
  }

  /** The names of the methods generated for one element: `addMethod` keeps
      the first method of each name. */
  function MethodPlan(loc: Locator, steps: seq<TestStep>): (r: seq<string>)
    ensures NoDups(r)
  {
    Dedup(CandidateNames(loc, steps))
  }

  /** `waitFor<Name>Visible` is always the first method. */
  lemma WaitForComesFirst(loc: Locator, steps: seq<TestStep>)
    ensures MethodPlan(loc, steps) != [] && MethodPlan(loc, steps)[0] == WaitForName(Capitalize(loc.name))
  {
    DedupHead(CandidateNames(loc, steps));
  }

  /** Lengths and first letters of the verbs with a template. */
  lemma ActionVerbFacts()
    ensures forall v :: v in ActionVerbs ==> 4 <= |v| <= 8 && |v| != 7 && v[0] != 'a'
  {
    assert ActionVerbs == ["click", "fill", "check", "select", "clear", "getValue"];
  }

  lemma ActionVerbShape(verb: string)
    requires verb in ActionVerbs
    ensures 4 <= |verb| <= 8 && |verb| != 7 && verb[0] != 'a'
  {
    ActionVerbFacts();
  }

  /** A name of the given shape cannot be an action method name: its part
      before the element name has the wrong length. */
  lemma NotActionMethodName(required: seq<string>, element: string, x: string)
    requires |element| <= |x| && (|x| - |element| == 7 || |x| - |element| > 8)
    ensures x !in ActionMethodNames(required, element)
  {
    ActionMethodNamesShape(required, element);
    ActionVerbFacts();
  }

  /** A name that does not end in `f` is not an `assert…OneOf` name. */
  lemma NotOneOfName(relevant: seq<TestStep>, x: string)
    requires x != [] && x[|x| - 1] != 'f'
    ensures x !in OneOfNames(relevant)
  {
    OneOfNamesMembers(relevant);
    assert !EndsWith(x, "OneOf") by {
      if |x| >= 5 {
        assert x[|x| - 5..][4] == x[|x| - 1] != "OneOf"[4];
      }
    }
  }

  /** A name that does not start with `a` is not an `assert…OneOf` name. */
  lemma NotOneOfNameByHead(relevant: seq<TestStep>, x: string)
    requires x != [] && x[0] != 'a'
    ensures x !in OneOfNames(relevant)
  {
    OneOfNamesMembers(relevant);
    assert !StartsWith(x, "assert") by {
      if |x| >= 6 {
        assert x[..6][0] == x[0] != "assert"[0];
      }
    }
  }

  /** A verb method name differs from the fixed method names: their parts
      before the element name have different lengths. */
  lemma VerbNameNotFixed(verb: string, e: string)
    requires 4 <= |verb| <= 8 && |verb| != 7
    ensures verb + e != WaitForName(e) && verb + e != GetTextName(e)
    ensures verb + e != AssertTextName(e) && verb + e != IsVisibleName(e)
  {
    assert |WaitForName(e)| == |e| + 14 && |GetTextName(e)| == |e| + 7;
    assert |AssertTextName(e)| == |e| + 10 && |IsVisibleName(e)| == |e| + 9;
  }

  /** The text methods are generated exactly when the locator declares no
      actions. */
  lemma TextMethodsIffNoActions(loc: Locator, steps: seq<TestStep>)
    ensures var e := Capitalize(loc.name);
            && (GetTextName(e) in MethodPlan(loc, steps) <==> loc.actions == [])
            && (AssertTextName(e) in MethodPlan(loc, steps) <==> loc.actions == [])
            && (IsVisibleName(e) in MethodPlan(loc, steps) <==> loc.actions == [])
  {
    var e := Capitalize(loc.name);
    var relevant := RelevantSteps(steps, loc);
    var required := RequiredActions(loc.actions, relevant);
    var getText, assertText, isVisible := GetTextName(e), AssertTextName(e), IsVisibleName(e);
    assert |getText| == |e| + 7 && getText[|getText| - 1] == 't';
    assert |assertText| == |e| + 10 && assertText[|assertText| - 1] == 't';
    assert |isVisible| == |e| + 9 && isVisible[|isVisible| - 1] == 'e';
    NotOneOfName(relevant, getText);
    NotOneOfName(relevant, assertText);
    NotOneOfName(relevant, isVisible);
    NotActionMethodName(required, e, getText);
    NotActionMethodName(required, e, assertText);
    NotActionMethodName(required, e, isVisible);
    assert getText != WaitForName(e) && assertText != WaitForName(e) && isVisible != WaitForName(e) by {
      assert |WaitForName(e)| == |e| + 14;
    }
  }

  /** `<verb><Element>` is an action method name exactly when the verb is a
      required action with a template. */
  lemma ActionMethodNameOf(required: seq<string>, element: string, verb: string)
    ensures verb + element in ActionMethodNames(required, element) <==> verb in required && verb in ActionVerbs
  {
    ActionMethodNamesShape(required, element);
    ActionMethodNamesCover(required, element);
    assert (verb + element)[..|verb + element| - |element|] == verb;
  }

  /** `<verb><Name>` is generated for a verb with a template exactly when the
      verb is a required action. */
  lemma VerbMethodIffRequired(loc: Locator, steps: seq<TestStep>, verb: string)
    requires verb in ActionVerbs
    ensures verb + Capitalize(loc.name) in MethodPlan(loc, steps) <==>
            verb in RequiredActions(loc.actions, RelevantSteps(steps, loc))
  {
    var e := Capitalize(loc.name);
    var relevant := RelevantSteps(steps, loc);
    var required := RequiredActions(loc.actions, relevant);
    var name := verb + e;
    var fixed := [WaitForName(e)] + TextMethodNames(loc, e);
    assert CandidateNames(loc, steps) == fixed + OneOfNames(relevant) + ActionMethodNames(required, e);
    ActionVerbShape(verb);
    assert name !in fixed by {
      VerbNameNotFixed(verb, e);
    }
    assert name !in OneOfNames(relevant) by {
      NotOneOfNameByHead(relevant, name);
    }
    ActionMethodNameOf(required, e, verb);
  }

  /** The same in the source's terms: `<verb><Name>` is generated exactly
      when the locator lists the action or a relevant step starts with the
      verb. */
  lemma VerbMethodIffRequested(loc: Locator, steps: seq<TestStep>, verb: string)
    requires verb in ActionVerbs
    ensures verb + Capitalize(loc.name) in MethodPlan(loc, steps) <==>
            verb in loc.actions || SomeStepStartsWith(RelevantSteps(steps, loc), verb)
  {
    VerbMethodIffRequired(loc, steps, verb);
    RequiredActionsMember(loc.actions, RelevantSteps(steps, loc), verb);
  }

  /** Every relevant `assert…OneOf` step gets a method named after its
      action. */
  lemma OneOfStepsIncluded(loc: Locator, steps: seq<TestStep>)
    ensures forall i :: 0 <= i < |RelevantSteps(steps, loc)| && IsOneOfAssertion(RelevantSteps(steps, loc)[i].action) ==>
              RelevantSteps(steps, loc)[i].action in MethodPlan(loc, steps)
  {
    OneOfNamesMembers(RelevantSteps(steps, loc));
  }

  /** `addMethod`: push the method unless its code is empty or its name was
      already generated. `candidates` (ghost) are the non-empty methods
      offered so far. */
  ghost predicate Tracks(methods: seq<string>, generated: set<string>, candidates: seq<string>) {
    methods == Dedup(candidates) && forall x :: x in generated <==> x in candidates
  }

  method AddMethod(methods: seq<string>, generated: set<string>, ghost candidates: seq<string>,
                   hasCode: bool, methodName: string)
    returns (methods': seq<string>, generated': set<string>)
    requires Tracks(methods, generated, candidates)
    ensures Tracks(methods', generated', if hasCode then candidates + [methodName] else candidates)
  {
    methods', generated' := methods, generated;
    if hasCode && methodName !in generated {
      methods' := methods + [methodName];
      generated' := generated + {methodName};
    }
    DedupSnoc(candidates, methodName);
  }

  /** `generateMethodsForElement`, returning the method names it emits. */
  method GenerateMethodsForElement(loc: Locator, testSteps: seq<TestStep>) returns (methods: seq<string>)
    ensures methods == MethodPlan(loc, testSteps)
  {
    methods := [];
    var generatedMethodNames: set<string> := {};
    ghost var candidates: seq<string> := [];
    var elementName := Capitalize(loc.name);

    methods, generatedMethodNames := AddMethod(methods, generatedMethodNames, candidates, true, WaitForName(elementName));
    candidates := candidates + [WaitForName(elementName)];

    if |loc.actions| == 0 {
      methods, generatedMethodNames := AddMethod(methods, generatedMethodNames, candidates, true, GetTextName(elementName));
      candidates := candidates + [GetTextName(elementName)];
      methods, generatedMethodNames := AddMethod(methods, generatedMethodNames, candidates, true, AssertTextName(elementName));
      candidates := candidates + [AssertTextName(elementName)];
      methods, generatedMethodNames := AddMethod(methods, generatedMethodNames, candidates, true, IsVisibleName(elementName));
      candidates := candidates + [IsVisibleName(elementName)];
    }
    ghost var fixed := candidates;
    assert fixed == [WaitForName(elementName)] + TextMethodNames(loc, elementName);

    var relevantSteps := RelevantSteps(testSteps, loc);
    var allRequiredActions;
    methods, generatedMethodNames, allRequiredActions, candidates :=
      ScanRelevantSteps(relevantSteps, loc.actions, methods, generatedMethodNames, candidates);
    methods, generatedMethodNames, candidates :=
      AddActionMethods(allRequiredActions, elementName, methods, generatedMethodNames, candidates);
  }

  /** The scan of the relevant steps (lines 137-165): collects the verbs they
      start with into the required actions and adds their `assert…OneOf`
      methods. */
  method ScanRelevantSteps(relevantSteps: seq<TestStep>, actions: seq<string>,
                           methods: seq<string>, generated: set<string>, ghost candidates: seq<string>)
    returns (methods': seq<string>, generated': set<string>, allRequiredActions: seq<string>, ghost candidates': seq<string>)
    requires Tracks(methods, generated, candidates)
    ensures Tracks(methods', generated', candidates')
    ensures candidates' == candidates + OneOfNames(relevantSteps)
    ensures allRequiredActions == RequiredActions(actions, relevantSteps)
  {
    methods', generated', candidates' := methods, generated, candidates;
    allRequiredActions := Dedup(actions);
    for i := 0 to |relevantSteps|
      invariant Tracks(methods', generated', candidates')
      invariant candidates' == candidates + OneOfNames(relevantSteps[..i])
      invariant allRequiredActions == RequiredActions(actions, relevantSteps[..i])
    {
      ghost var before := candidates';
      methods', generated', allRequiredActions, candidates' :=
        ScanStep(relevantSteps[i], methods', generated', allRequiredActions, candidates');
      ScanInvariantStep(relevantSteps, i, actions, candidates, before);
    }
    assert relevantSteps[..|relevantSteps|] == relevantSteps;
  }

  lemma ScanInvariantStep(relevantSteps: seq<TestStep>, i: nat, actions: seq<string>, candidates: seq<string>,
                          before: seq<string>)
    requires i < |relevantSteps|
    requires before == candidates + OneOfNames(relevantSteps[..i])
    ensures before + OneOfStep(relevantSteps[i].action) == candidates + OneOfNames(relevantSteps[..i + 1])
    ensures AddStepVerbs(RequiredActions(actions, relevantSteps[..i]), relevantSteps[i].action)
            == RequiredActions(actions, relevantSteps[..i + 1])
  {
    assert relevantSteps[..i + 1][..i] == relevantSteps[..i];
  }

  /** One step of the scan: its six verb tests and, for an `assert…OneOf`
      action, the method named after it. */
  method ScanStep(step: TestStep, methods: seq<string>, generated: set<string>,
                  allRequiredActions: seq<string>, ghost candidates: seq<string>)
    returns (methods': seq<string>, generated': set<string>, required': seq<string>, ghost candidates': seq<string>)
    requires Tracks(methods, generated, candidates)
    ensures Tracks(methods', generated', candidates')
    ensures candidates' == candidates + OneOfStep(step.action)
    ensures required' == AddStepVerbs(allRequiredActions, step.action)
  {
    methods', generated', candidates' := methods, generated, candidates;
    required' := AddVerb(allRequiredActions, step.action, "click");
    required' := AddVerb(required', step.action, "fill");
    required' := AddVerb(required', step.action, "check");
    required' := AddVerb(required', step.action, "select");
    required' := AddVerb(required', step.action, "clear");
    required' := AddVerb(required', step.action, "getValue");
    if StartsWith(step.action, "assert") && EndsWith(step.action, "OneOf") {
      methods', generated' := AddMethod(methods', generated', candidates', true, step.action);
      candidates' := candidates' + [step.action];
    }
  }

  /** The pass over `allRequiredActions` (lines 168-268): one method per
      action with a template, named `<action><Element>`. */
  method AddActionMethods(allRequiredActions: seq<string>, elementName: string,
                          methods: seq<string>, generated: set<string>, ghost candidates: seq<string>)
    returns (methods': seq<string>, generated': set<string>, ghost candidates': seq<string>)
    requires Tracks(methods, generated, candidates)
    ensures Tracks(methods', generated', candidates')
    ensures candidates' == candidates + ActionMethodNames(allRequiredActions, elementName)
  {
    methods', generated', candidates' := methods, generated, candidates;
    for j := 0 to |allRequiredActions|
      invariant Tracks(methods', generated', candidates')
      invariant candidates' == candidates + ActionMethodNames(allRequiredActions[..j], elementName)
    {
      var action := allRequiredActions[j];
      var methodName := action + elementName;
      var hasCode := action in ActionVerbs;
      assert allRequiredActions[..j + 1][..j] == allRequiredActions[..j];
      methods', generated' := AddMethod(methods', generated', candidates', hasCode, methodName);
      if hasCode {
        candidates' := candidates' + [methodName];
      }
    }
    assert allRequiredActions[..|allRequiredActions|] == allRequiredActions;
  }

  // ---------------------------------------------------------------------
  // Page objects

  /** A page definition as read from JSON: a missing or null field is `None`. */
  datatype RawPage = RawPage(className: Option<string>, locators: Option<seq<Locator>>)

  datatype RawDefinition = RawDefinition(
    pageObject: Option<RawPage>,
    additionalPageObjects: Option<seq<RawPage>>,
    testSteps: seq<TestStep>)

  datatype PomError = MissingClassNameOrLocators(page: RawPage) | NoPageObjects

  /** What `generatePageObjectClass` reports, with the method names of each
      element in place of the generated text. */
  datatype GeneratedClass = GeneratedClass(className: string, methods: seq<seq<string>>, elementCount: nat, methodCount: nat)

  function TotalMethods(methods: seq<seq<string>>): nat {
    if methods == [] then 0 else TotalMethods(methods[..|methods| - 1]) + |methods[|methods| - 1]|
  }

  /** `generatePageObjectClass`: an error when the class name is missing or
      empty or the locators are missing; otherwise one method plan per
      locator, and `elementCount` is the number of locators. */
  function GeneratePageObjectClass(page: RawPage, allTestSteps: seq<TestStep>): Result<GeneratedClass, PomError> {
    if page.locators.None? || page.className.None? || page.className.value == "" then
      Failure(MissingClassNameOrLocators(page))
    else
      var locators := page.locators.value;
      var methods := seq(|locators|, i requires 0 <= i < |locators| => MethodPlan(locators[i], allTestSteps));
      Success(GeneratedClass(page.className.value, methods, |locators|, TotalMethods(methods)))
  }

  /** A page without class name or locators is refused; otherwise every
      locator gets its planned methods, in order, and the counts agree. */
  lemma PageObjectClassContents(page: RawPage, allTestSteps: seq<TestStep>)
    ensures var r := GeneratePageObjectClass(page, allTestSteps);
      && (r.Failure? <==> page.locators.None? || page.className.None? || page.className.value == "")
      && (r.Failure? ==> r.error == MissingClassNameOrLocators(page))
      && (r.Success? ==>
            && r.value.className == page.className.value
            && r.value.elementCount == |page.locators.value|
            && |r.value.methods| == |page.locators.value|
            && (forall i :: 0 <= i < |r.value.methods| ==> r.value.methods[i] == MethodPlan(page.locators.value[i], allTestSteps))
            && r.value.methodCount == TotalMethods(r.value.methods))
  {
  }

  /** The pages a definition file yields: `pageObject` first when present,
      then the additional pages in order. */
  function PageList(definition: RawDefinition): seq<RawPage> {
    (if definition.pageObject.Some? then [definition.pageObject.value] else [])
    + definition.additionalPageObjects.GetOr([])
  }

  /** Lines 321-331: the pages are pushed in that order; no page at all is
      an error. */
  method CollectPageObjects(definition: RawDefinition) returns (r: Result<seq<RawPage>, PomError>)
    ensures r == if PageList(definition) == [] then Failure(NoPageObjects) else Success(PageList(definition))
    ensures r.Failure? <==> definition.pageObject.None? && definition.additionalPageObjects.GetOr([]) == []
  {
    var allPageObjects: seq<RawPage> := [];
    if definition.pageObject.Some? {
      allPageObjects := allPageObjects + [definition.pageObject.value];
    }
    if definition.additionalPageObjects.Some? {
      allPageObjects := allPageObjects + definition.additionalPageObjects.value;
    }
    assert allPageObjects == PageList(definition);
    if |allPageObjects| == 0 {
      return Failure(NoPageObjects);
    }
    return Success(allPageObjects);
  }

  /** The generation loop of the script: every page in order, stopping at
      the first page that fails the checks. */
  method GenerateAll(definition: RawDefinition) returns (r: Result<seq<GeneratedClass>, PomError>)
    ensures r.Success? ==>
              && |r.value| == |PageList(definition)| && PageList(definition) != []
              && forall i :: 0 <= i < |r.value| ==>
                   GeneratePageObjectClass(PageList(definition)[i], definition.testSteps) == Success(r.value[i])
    ensures r.Failure? ==>
              || (r.error == NoPageObjects && PageList(definition) == [])
              || exists k :: 0 <= k < |PageList(definition)|
                   && GeneratePageObjectClass(PageList(definition)[k], definition.testSteps) == Failure(r.error)
                   && forall i :: 0 <= i < k ==> GeneratePageObjectClass(PageList(definition)[i], definition.testSteps).Success?
  {
    var collected := CollectPageObjects(definition);
    if collected.Failure? {
      return Failure(collected.error);
    }
    assert collected.value == PageList(definition);
    var generate := (page: RawPage) => GeneratePageObjectClass(page, definition.testSteps);
    r := TryMap(collected.value, generate);
  }
}
