/** The selector knowledge base (orchestrator/learning-system.ts): per page
    and element, the selector keys that worked and those that failed; the
    history of failed executions; the rewrite of new asset documents with
    that knowledge; and the reports and advice derived from both. */
module Learning {
  import opened Common
  import opened Text
  import opened Seqs
  import opened Schema
  import Analyzer

  datatype LearnedSelector = LearnedSelector(
    url: string,
    elementDescription: string,
    workingSelectors: seq<string>,
    failedSelectors: seq<string>,
    lastUpdated: int,
    successRate: real)

  datatype Environment = Environment(browser: string, viewport: string, url: string)

  /** One entry of `executionHistory`. `hour` is the local hour of
      `timestamp`, read from the clock together with it. */
  datatype ExecutionRecord = ExecutionRecord(
    testName: string,
    timestamp: int,
    hour: int,
    success: bool,
    duration: int,
    failureAnalysis: Option<Analyzer.FailureAnalysis>,
    environment: Environment)

  /** A JavaScript `Map<string, LearnedSelector>`: `keys` is its iteration
      (insertion) order. */
  datatype KnowledgeMap = KnowledgeMap(keys: seq<string>, entries: map<string, LearnedSelector>)

  ghost predicate WellFormed(m: KnowledgeMap) {
    NoDups(m.keys) && forall k :: k in m.entries <==> k in m.keys
  }

  /** `map.get(key)` */
  function Get(m: KnowledgeMap, key: string): Option<LearnedSelector> {
    if key in m.entries then Some(m.entries[key]) else None
  }

  /** `map.set(key, value)`: a new key is iterated last, an existing key keeps
      its place. */
  function Put(m: KnowledgeMap, key: string, value: LearnedSelector): (r: KnowledgeMap)
    ensures WellFormed(m) ==> WellFormed(r)
    ensures r.entries == m.entries[key := value]
    ensures m.keys <= r.keys
  {
    KnowledgeMap(if key in m.entries then m.keys else m.keys + [key], m.entries[key := value])
  }

  /** `Array.from(map.values())` */
  function Values(m: KnowledgeMap): (r: seq<LearnedSelector>)
    requires WellFormed(m)
    ensures |r| == |m.keys|
    ensures forall i :: 0 <= i < |m.keys| ==> r[i] == m.entries[m.keys[i]]
  {
    seq(|m.keys|, i requires 0 <= i < |m.keys| => m.entries[m.keys[i]])
  }

  // ---------------------------------------------------------------------
  // Entries

  /** `calculateSuccessRate` on the two list lengths. */
  function Rate(working: nat, failed: nat): (r: real)
    ensures 0.0 <= r <= 100.0
    ensures working + failed == 0 ==> r == 0.0
    ensures working + failed > 0 ==> r * (working + failed) as real == 100.0 * working as real
  {
    var total := working + failed;
    if total > 0 then
      assert working as real / total as real <= 1.0;
      (working as real / total as real) * 100.0
    else 0.0
  }

  function CalculateSuccessRate(e: LearnedSelector): real {
    Rate(|e.workingSelectors|, |e.failedSelectors|)
  }

  /** An entry as the system keeps it: each list holds selector keys
      (`type:value`), none twice, and the rate agrees with the list lengths. */
  predicate ConsistentEntry(e: LearnedSelector) {
    NoDups(e.workingSelectors) && NoDups(e.failedSelectors)
    && (forall s :: s in e.workingSelectors ==> ':' in s)
    && (forall s :: s in e.failedSelectors ==> ':' in s)
    && e.successRate == CalculateSuccessRate(e)
  }

  ghost predicate ValidKnowledge(m: KnowledgeMap) {
    WellFormed(m) && forall k :: k in m.entries ==> ConsistentEntry(m.entries[k])
  }

  /** The map key `${pageUrl}-${name}`. */
  function EntryKey(url: string, name: string): string {
    url + "-" + name
  }

  /** `createNewEntry`: empty lists and rate 0. */
  function NewEntry(url: string, name: string, now: int): (e: LearnedSelector)
    ensures ConsistentEntry(e)
    ensures e.workingSelectors == [] && e.failedSelectors == [] && e.successRate == 0.0
    ensures e.url == url && e.elementDescription == name
  {
    LearnedSelector(url, name, [], [], now, 0.0)
  }

  /** The stored entry for `key`, or a new one. */
  function EntryOrNew(m: KnowledgeMap, key: string, url: string, name: string, now: int): LearnedSelector {
    if key in m.entries then m.entries[key] else NewEntry(url, name, now)
  }

  // ---------------------------------------------------------------------
  // Selector keys

  /** `selectorToString`: `${type}:${value}`. */
  function SelectorToString(s: Selector): (r: string)
    ensures ':' in r
  {
    assert (s.kind + ":" + s.value)[|s.kind|] == ':';
    s.kind + ":" + s.value
  }

  /** `stringToSelector`: the type is the text before the first ':', the value
      everything after it (further ':' included); there are no options. */
  function StringToSelector(str: string): (s: Selector)
    ensures s.options.None?
    ensures ':' !in s.kind
    ensures ':' !in str ==> s == Selector(str, "", None)
  {
    var i := IndexOf(str, ':');
    if i == |str| then Selector(str, "", None) else Selector(str[..i], str[i + 1..], None)
  }

  /** A selector whose type has no ':' survives the round trip through its
      key, minus its options; its value may contain ':'. */
  lemma SelectorRoundTrip(s: Selector)
    requires ':' !in s.kind
    ensures StringToSelector(SelectorToString(s)) == Selector(s.kind, s.value, None)
  {
    var str := s.kind + ":" + s.value;
    assert str[..|s.kind|] == s.kind;
    IndexOfAt(str, ':', |s.kind|);
    assert str[|s.kind| + 1..] == s.value;
  }

  /** A key with a ':' survives the opposite round trip. */
  lemma KeyRoundTrip(str: string)
    requires ':' in str
    ensures SelectorToString(StringToSelector(str)) == str
  {
    var i := IndexOf(str, ':');
    assert str[..|str|] == str;
    assert str[..i] + ":" + str[i + 1..] == str;
  }

  function SelectorKeys(sels: seq<Selector>): (r: seq<string>)
    ensures |r| == |sels|
    ensures forall i :: 0 <= i < |sels| ==> r[i] == SelectorToString(sels[i])
    ensures forall k :: k in r ==> ':' in k
  {
    seq(|sels|, i requires 0 <= i < |sels| => SelectorToString(sels[i]))
  }

  // ---------------------------------------------------------------------
  // Learning from a success

  /** One iteration of the locator loop of `learnFromSuccess`. */
  function LearnLocator(m: KnowledgeMap, pageUrl: string, loc: Locator, now: int): KnowledgeMap {
    var key := EntryKey(pageUrl, loc.name);
    var existing := EntryOrNew(m, key, pageUrl, loc.name, now);
    var working := AppendMissing(existing.workingSelectors, SelectorKeys(loc.selectors));
    Put(m, key, existing.(workingSelectors := working,
                          successRate := Rate(|working|, |existing.failedSelectors|),
                          lastUpdated := now))
  }

  lemma LearnLocatorKeepsValid(m: KnowledgeMap, pageUrl: string, loc: Locator, now: int)
    requires ValidKnowledge(m)
    ensures ValidKnowledge(LearnLocator(m, pageUrl, loc, now))
  {
  }

  /** One locator: its selectors become working keys of its entry, which is
      the only entry that changes. */
  lemma LearnLocatorEffect(m: KnowledgeMap, pageUrl: string, loc: Locator, now: int)
    ensures GrowsWorking(m, LearnLocator(m, pageUrl, loc, now))
    ensures forall j :: 0 <= j < |loc.selectors| ==> Recorded(LearnLocator(m, pageUrl, loc, now), pageUrl, loc, j)
    ensures forall k :: k in m.entries && k != EntryKey(pageUrl, loc.name) ==>
              LearnLocator(m, pageUrl, loc, now).entries[k] == m.entries[k]
    ensures LearnLocator(m, pageUrl, loc, now).entries.Keys == m.entries.Keys + {EntryKey(pageUrl, loc.name)}
  {
  }

  /** What learning from a success never undoes: every key stays where it
      is, each working list only grows at its end, failed lists are
      untouched, and entries it creates have no failed selectors. */
  predicate GrowsWorking(m: KnowledgeMap, r: KnowledgeMap) {
    && m.keys <= r.keys
    && (forall k :: k in m.entries ==>
          && k in r.entries
          && m.entries[k].workingSelectors <= r.entries[k].workingSelectors
          && r.entries[k].failedSelectors == m.entries[k].failedSelectors)
    && (forall k :: k in r.entries && k !in m.entries ==> r.entries[k].failedSelectors == [])
  }

  lemma GrowsWorkingTransitive(a: KnowledgeMap, b: KnowledgeMap, c: KnowledgeMap)
    requires GrowsWorking(a, b) && GrowsWorking(b, c)
    ensures GrowsWorking(a, c)
  {
    forall k | k in a.entries
      ensures a.entries[k].workingSelectors <= c.entries[k].workingSelectors
    {
      PrefixTransitive(a.entries[k].workingSelectors, b.entries[k].workingSelectors, c.entries[k].workingSelectors);
    }
    PrefixTransitive(a.keys, b.keys, c.keys);
  }

  lemma PrefixTransitive<T>(x: seq<T>, y: seq<T>, z: seq<T>)
    requires x <= y && y <= z
    ensures x <= z
  {
    assert y[..|x|] == x;
    assert z[..|y|][..|x|] == z[..|x|];
  }

  /** The knowledge base after `learnFromSuccess` walked `locators`. */
  function LearnAll(m: KnowledgeMap, pageUrl: string, locators: seq<Locator>, now: int): KnowledgeMap
    decreases |locators|
  {
    if locators == [] then m
    else LearnLocator(LearnAll(m, pageUrl, locators[..|locators| - 1], now), pageUrl, locators[|locators| - 1], now)
  }

  /** `learnFromSuccess` keeps every entry consistent. */
  lemma {:induction false} LearnAllKeepsValid(m: KnowledgeMap, pageUrl: string, locators: seq<Locator>, now: int)
    requires ValidKnowledge(m)
    ensures ValidKnowledge(LearnAll(m, pageUrl, locators, now))
    decreases |locators|
  {
    if locators != [] {
      LearnAllKeepsValid(m, pageUrl, locators[..|locators| - 1], now);
      LearnLocatorKeepsValid(LearnAll(m, pageUrl, locators[..|locators| - 1], now), pageUrl, locators[|locators| - 1], now);
    }
  }

  /** `learnFromSuccess` keeps every key in place, only appends to working
      lists, and never touches a failed list. */
  lemma {:induction false} LearnAllGrowsWorking(m: KnowledgeMap, pageUrl: string, locators: seq<Locator>, now: int)
    ensures GrowsWorking(m, LearnAll(m, pageUrl, locators, now))
    decreases |locators|
  {
    if locators != [] {
      var mid := LearnAll(m, pageUrl, locators[..|locators| - 1], now);
      LearnAllGrowsWorking(m, pageUrl, locators[..|locators| - 1], now);
      LearnLocatorEffect(mid, pageUrl, locators[|locators| - 1], now);
      GrowsWorkingTransitive(m, mid, LearnAll(m, pageUrl, locators, now));
    }
  }

  /** Selector `j` of `loc` is a working key of the entry for `loc`. */
  predicate Recorded(m: KnowledgeMap, pageUrl: string, loc: Locator, j: nat)
    requires j < |loc.selectors|
  {
    var key := EntryKey(pageUrl, loc.name);
    key in m.entries && SelectorToString(loc.selectors[j]) in m.entries[key].workingSelectors
  }

  lemma LearnAllSnoc(m: KnowledgeMap, pageUrl: string, locators: seq<Locator>, now: int)
    requires locators != []
    ensures LearnAll(m, pageUrl, locators, now)
            == LearnLocator(LearnAll(m, pageUrl, locators[..|locators| - 1], now), pageUrl, locators[|locators| - 1], now)
  {
  }

  lemma StaysRecorded(m: KnowledgeMap, r: KnowledgeMap, pageUrl: string, loc: Locator, j: nat)
    requires j < |loc.selectors| && GrowsWorking(m, r) && Recorded(m, pageUrl, loc, j)
    ensures Recorded(r, pageUrl, loc, j)
  {
    var key := EntryKey(pageUrl, loc.name);
    PrefixMember(m.entries[key].workingSelectors, r.entries[key].workingSelectors, SelectorToString(loc.selectors[j]));
  }

  /** After `learnFromSuccess`, every selector of every locator is a working
      key of that locator's entry. */
  lemma {:induction false} LearnAllRecordsEverySelector(m: KnowledgeMap, pageUrl: string, locators: seq<Locator>, now: int)
    ensures forall i, j :: 0 <= i < |locators| && 0 <= j < |locators[i].selectors| ==>
              Recorded(LearnAll(m, pageUrl, locators, now), pageUrl, locators[i], j)
    decreases |locators|
  {
    if locators != [] {
      var n := |locators| - 1;
      var prefix := locators[..n];
      var mid := LearnAll(m, pageUrl, prefix, now);
      var r := LearnAll(m, pageUrl, locators, now);
      assert r == LearnLocator(mid, pageUrl, locators[n], now);
      LearnLocatorEffect(mid, pageUrl, locators[n], now);
      LearnAllRecordsEverySelector(m, pageUrl, prefix, now);
      forall i, j | 0 <= i < n && 0 <= j < |locators[i].selectors|
        ensures Recorded(r, pageUrl, locators[i], j)
      {
        assert prefix[i] == locators[i];
        StaysRecorded(mid, r, pageUrl, locators[i], j);
      }
    }
  }

  /** `learnFromSuccess` creates or changes only the entries its locators
      name. */
  lemma {:induction false} LearnAllTouchesOnlyNamedEntries(m: KnowledgeMap, pageUrl: string, locators: seq<Locator>, now: int)
    ensures forall k :: k in m.entries && (forall i :: 0 <= i < |locators| ==> EntryKey(pageUrl, locators[i].name) != k) ==>
              k in LearnAll(m, pageUrl, locators, now).entries && LearnAll(m, pageUrl, locators, now).entries[k] == m.entries[k]
    ensures forall k :: k in LearnAll(m, pageUrl, locators, now).entries ==>
              k in m.entries || exists i :: 0 <= i < |locators| && k == EntryKey(pageUrl, locators[i].name)
    decreases |locators|
  {
    if locators != [] {
      var n := |locators| - 1;
      var prefix := locators[..n];
      var mid := LearnAll(m, pageUrl, prefix, now);
      LearnAllTouchesOnlyNamedEntries(m, pageUrl, prefix, now);
      LearnLocatorEffect(mid, pageUrl, locators[n], now);
      assert prefix + [locators[n]] == locators;
      TouchesOnlyNamedStep(m.entries, mid.entries, LearnAll(m, pageUrl, locators, now).entries, pageUrl, prefix, locators[n]);
    }
  }

  /** One step of the induction above, on the entry maps before the first
      locator (`m`), before the last one (`mid`) and after it (`r`). */
  lemma TouchesOnlyNamedStep(m: map<string, LearnedSelector>, mid: map<string, LearnedSelector>,
                             r: map<string, LearnedSelector>, pageUrl: string, prefix: seq<Locator>, loc: Locator)
    requires forall k :: k in m && (forall i :: 0 <= i < |prefix| ==> EntryKey(pageUrl, prefix[i].name) != k) ==>
               k in mid && mid[k] == m[k]
    requires forall k :: k in mid ==> k in m || exists i :: 0 <= i < |prefix| && k == EntryKey(pageUrl, prefix[i].name)
    requires r.Keys == mid.Keys + {EntryKey(pageUrl, loc.name)}
    requires forall k :: k in mid && k != EntryKey(pageUrl, loc.name) ==> r[k] == mid[k]
    ensures forall k :: k in m && (forall i :: 0 <= i < |prefix + [loc]| ==> EntryKey(pageUrl, (prefix + [loc])[i].name) != k) ==>
              k in r && r[k] == m[k]
    ensures forall k :: k in r ==> k in m || exists i :: 0 <= i < |prefix + [loc]| && k == EntryKey(pageUrl, (prefix + [loc])[i].name)
  {
    var all := prefix + [loc];
    forall k | k in m && (forall i :: 0 <= i < |all| ==> EntryKey(pageUrl, all[i].name) != k)
      ensures k in r && r[k] == m[k]
    {
      assert EntryKey(pageUrl, all[|prefix|].name) != k;
      forall i | 0 <= i < |prefix|
        ensures EntryKey(pageUrl, prefix[i].name) != k
      {
        assert all[i] == prefix[i];
      }
    }
    forall k | k in r
      ensures k in m || exists i :: 0 <= i < |all| && k == EntryKey(pageUrl, all[i].name)
    {
      if k == EntryKey(pageUrl, loc.name) {
        assert all[|prefix|] == loc;
      } else if k !in m {
        var i :| 0 <= i < |prefix| && k == EntryKey(pageUrl, prefix[i].name);
        assert all[i] == prefix[i];
      }
    }
  }

  lemma PrefixMember<T>(x: seq<T>, y: seq<T>, e: T)
    requires x <= y && e in x
    ensures e in y
  {
    var i :| 0 <= i < |x| && x[i] == e;
    assert y[i] == e;
  }

  // ---------------------------------------------------------------------
  // Learning from a failure

  /** The verbs of `/^(?:click|fill|waitFor|assert|check|select|clear|get|is)(\w+)/i`. */
  const ElementVerbs: seq<string> := ["click", "fill", "waitFor", "assert", "check", "select", "clear", "get", "is"]

  /** That expression matches `step` through the alternative `verb`: the verb,
      ignoring case, and at least one word character after it. */
  predicate VerbMatch(step: string, verb: string) {
    StartsWithIgnoreCase(step, verb) && |verb| < |step| && IsWordChar(step[|verb|])
  }

  /** The element name `learnFromFailure` reads from a failed step: the
      greedy `\w+` after the verb with its first letter lower-cased. */
  function FailedElementName(step: string): Option<string> {
    match FindFirst(ElementVerbs, (v: string) => VerbMatch(step, v))
    case None => None
    case Some(i) =>
      var rest := step[|ElementVerbs[i]|..];
      Some(LowerFirst(rest[..WordRunLength(rest)]))
  }

  /** A name is read exactly when one of the verbs matches. */
  lemma FailedElementNameMatches(step: string)
    ensures FailedElementName(step).Some? <==> exists v :: v in ElementVerbs && VerbMatch(step, v)
  {
    var found := FindFirst(ElementVerbs, (v: string) => VerbMatch(step, v));
    if found.None? {
      forall v | v in ElementVerbs
        ensures !VerbMatch(step, v)
      {
        var i :| 0 <= i < |ElementVerbs| && ElementVerbs[i] == v;
        assert !(((v: string) => VerbMatch(step, v))(ElementVerbs[i]));
      }
    } else {
      assert VerbMatch(step, ElementVerbs[found.value]);
    }
  }

  /** The name read is a non-empty run of word characters that does not
      start with an upper-case letter. */
  lemma FailedElementNameShape(step: string)
    ensures var r := FailedElementName(step);
            r.Some? ==> r.value != [] && !IsUpper(r.value[0])
                        && forall k :: 0 <= k < |r.value| ==> IsWordChar(r.value[k])
  {
    var found := FindFirst(ElementVerbs, (v: string) => VerbMatch(step, v));
    if found.Some? {
      var verb := ElementVerbs[found.value];
      assert VerbMatch(step, verb);
      var rest := step[|verb|..];
      assert rest[0] == step[|verb|];
      var word := rest[..WordRunLength(rest)];
      assert word[0] == rest[0];
      assert FailedElementName(step) == Some(LowerFirst(word));
    }
  }

  /** `locators.find(loc => loc.name === name)`, as a position. */
  function LocatorNamed(locators: seq<Locator>, name: string): Option<nat> {
    FindFirst(locators, (l: Locator) => l.name == name)
  }

  /** The update `learnFromFailure` makes for the element `name` whose
      page-object locator is `loc`: the locator's selector keys that are not
      yet failed are appended to the element's failed list; its working list
      and every other entry stay as they were. */
  function MarkFailed(m: KnowledgeMap, pageUrl: string, name: string, loc: Locator, now: int): (r: KnowledgeMap)
    ensures ValidKnowledge(m) ==> ValidKnowledge(r)
    ensures m.keys <= r.keys
    ensures r.entries.Keys == m.entries.Keys + {EntryKey(pageUrl, name)}
    ensures forall k :: k in m.entries && k != EntryKey(pageUrl, name) ==> r.entries[k] == m.entries[k]
    ensures var before := EntryOrNew(m, EntryKey(pageUrl, name), pageUrl, name, now);
            && r.entries[EntryKey(pageUrl, name)].workingSelectors == before.workingSelectors
            && r.entries[EntryKey(pageUrl, name)].failedSelectors
                 == AppendMissing(before.failedSelectors, SelectorKeys(loc.selectors))
  {
    var key := EntryKey(pageUrl, name);
    var existing := EntryOrNew(m, key, pageUrl, name, now);
    var failed := AppendMissing(existing.failedSelectors, SelectorKeys(loc.selectors));
    Put(m, key, existing.(failedSelectors := failed,
                          successRate := Rate(|existing.workingSelectors|, |failed|),
                          lastUpdated := now))
  }

  /** The knowledge-base part of `learnFromFailure`. It changes only when
      the failed step names an element, the failure is a selector failure,
      and a page-object locator has exactly that name, and it never touches
      a working list. */
  function RecordFailedSelectors(m: KnowledgeMap, pageUrl: string, analysis: Analyzer.FailureAnalysis,
                                 locators: seq<Locator>, now: int): (r: KnowledgeMap)
    ensures ValidKnowledge(m) ==> ValidKnowledge(r)
    ensures forall k :: k in m.entries ==>
              k in r.entries && r.entries[k].workingSelectors == m.entries[k].workingSelectors
    ensures var name := FailedElementName(analysis.failedStep);
            !(name.Some? && analysis.failureType == Analyzer.SelectorFailure
              && exists i :: 0 <= i < |locators| && locators[i].name == name.value)
            ==> r == m
  {
    match FailedElementName(analysis.failedStep)
    case None => m
    case Some(name) =>
      if analysis.failureType != Analyzer.SelectorFailure then m
      else match LocatorNamed(locators, name)
        case None => m
        case Some(i) => MarkFailed(m, pageUrl, name, locators[i], now)
  }

  /** When the three conditions hold, the failure is recorded against the
      first page-object locator with the element's name. */
  lemma RecordFailedSelectorsMarksFirst(m: KnowledgeMap, pageUrl: string, analysis: Analyzer.FailureAnalysis,
                                        locators: seq<Locator>, now: int, i: nat)
    requires FailedElementName(analysis.failedStep).Some?
    requires analysis.failureType == Analyzer.SelectorFailure
    requires i < |locators| && locators[i].name == FailedElementName(analysis.failedStep).value
    requires forall j :: 0 <= j < i ==> locators[j].name != locators[i].name
    ensures RecordFailedSelectors(m, pageUrl, analysis, locators, now)
            == MarkFailed(m, pageUrl, locators[i].name, locators[i], now)
  {
    var found := LocatorNamed(locators, locators[i].name);
    assert found.Some? && found.value == i;
  }

  const DefaultBrowser: string := "chromium"
  const DefaultViewport: string := "1280x720"

  /** `captureEnvironment`; `browserVar` is `process.env.BROWSER`. */
  function CaptureEnvironment(url: string, browserVar: Option<string>): (r: Environment)
    ensures r.url == url && r.viewport == DefaultViewport && r.browser != ""
    ensures browserVar.Some? && browserVar.value != "" ==> r.browser == browserVar.value
    ensures browserVar.None? || browserVar.value == "" ==> r.browser == DefaultBrowser
  {
    var browser := if browserVar.Some? && browserVar.value != "" then browserVar.value else DefaultBrowser;
    Environment(browser, DefaultViewport, url)
  }

  // ---------------------------------------------------------------------
  // Enhancing an asset document

  /** `knowledge.workingSelectors.map(stringToSelector)` */
  function WorkingAsSelectors(k: LearnedSelector): (r: seq<Selector>)
    ensures |r| == |k.workingSelectors|
    ensures forall i :: 0 <= i < |r| ==> r[i] == StringToSelector(k.workingSelectors[i])
  {
    seq(|k.workingSelectors|, i requires 0 <= i < |k.workingSelectors| => StringToSelector(k.workingSelectors[i]))
  }

  /** The locator's own selectors whose key is not a failed one, in order. */
  function KeptSelectors(loc: Locator, k: LearnedSelector): seq<Selector> {
    Filter(loc.selectors, (s: Selector) => SelectorToString(s) !in k.failedSelectors)
  }

  const MaxSelectors: nat := 5

  /** One locator of `enhanceAIAssets`. Without knowledge it is unchanged.
      With knowledge, its selectors are the working ones first, then its own
      non-failed ones, at most five in all and not deduplicated; only the
      selectors and the metadata change. */
  function EnhanceLocator(loc: Locator, knowledge: Option<LearnedSelector>): (r: Locator)
    ensures knowledge.None? ==> r == loc
    ensures knowledge.Some? ==>
      var k := knowledge.value;
      var kept := KeptSelectors(loc, k);
      && r == loc.(selectors := r.selectors, metadata := Some(Metadata(k.successRate, k.lastUpdated, true)))
      && |r.selectors| == (if |k.workingSelectors| + |kept| < MaxSelectors then |k.workingSelectors| + |kept| else MaxSelectors)
      && (forall i :: 0 <= i < |r.selectors| && i < |k.workingSelectors| ==>
            r.selectors[i] == StringToSelector(k.workingSelectors[i]))
      && (forall i :: |k.workingSelectors| <= i < |r.selectors| ==>
            r.selectors[i] == kept[i - |k.workingSelectors|])
      && (forall s :: s in kept <==> s in loc.selectors && SelectorToString(s) !in k.failedSelectors)
  {
    match knowledge
    case None => loc
    case Some(k) =>
      var combined := WorkingAsSelectors(k) + KeptSelectors(loc, k);
      loc.(selectors := Take(combined, MaxSelectors),
           metadata := Some(Metadata(k.successRate, k.lastUpdated, true)))
  }

  /** An enhanced locator never carries a failed selector key that is not
      also a working key. */
  lemma EnhancedSelectorsAvoidFailures(loc: Locator, k: LearnedSelector)
    requires ConsistentEntry(k)
    ensures forall s :: s in EnhanceLocator(loc, Some(k)).selectors ==>
              SelectorToString(s) in k.workingSelectors || SelectorToString(s) !in k.failedSelectors
  {
    var r := EnhanceLocator(loc, Some(k));
    forall s | s in r.selectors
      ensures SelectorToString(s) in k.workingSelectors || SelectorToString(s) !in k.failedSelectors
    {
      var i :| 0 <= i < |r.selectors| && r.selectors[i] == s;
      if i < |k.workingSelectors| {
        KeyRoundTrip(k.workingSelectors[i]);
      } else {
        assert s in KeptSelectors(loc, k);
      }
    }
  }

  // ---------------------------------------------------------------------
  // Reports

  function RateOf(e: LearnedSelector): real {
    e.successRate
  }

  const MaxReliable: nat := 10

  /** `getMostReliableSelectors` over the entries in map order. */
  function MostReliable(entries: seq<LearnedSelector>): (r: seq<LearnedSelector>)
    ensures |r| <= MaxReliable
    ensures forall i :: 0 <= i < |r| ==> r[i].successRate > 90.0 && r[i] in entries
    ensures multiset(r) <= multiset(entries)
    ensures NonIncreasing(r, RateOf)
  {
    var reliable := Filter(entries, (e: LearnedSelector) => e.successRate > 90.0);
    var sorted := SortDesc(reliable, RateOf);
    TopOfSorted(reliable, sorted, MaxReliable);
    FilterSubMultiset(entries, (e: LearnedSelector) => e.successRate > 90.0);
    TakeSubMultiset(sorted, MaxReliable);
    Take(sorted, MaxReliable)
  }

  lemma TopOfSorted(reliable: seq<LearnedSelector>, sorted: seq<LearnedSelector>, n: nat)
    requires multiset(sorted) == multiset(reliable) && NonIncreasing(sorted, RateOf)
    ensures forall i :: 0 <= i < |Take(sorted, n)| ==> Take(sorted, n)[i] in reliable
    ensures NonIncreasing(Take(sorted, n), RateOf)
  {
    var r := Take(sorted, n);
    forall i | 0 <= i < |r| ensures r[i] in reliable {
      assert r[i] == sorted[i];
      assert sorted[i] in multiset(reliable);
    }
  }

  /** An entry above 90 that is left out loses its place to ten entries rated
      at least as high. */
  lemma MostReliableAreTheTop(entries: seq<LearnedSelector>, e: LearnedSelector)
    requires e in entries && e.successRate > 90.0 && e !in MostReliable(entries)
    ensures |MostReliable(entries)| == MaxReliable
    ensures forall i :: 0 <= i < MaxReliable ==> MostReliable(entries)[i].successRate >= e.successRate
  {
    var reliable := Filter(entries, (e: LearnedSelector) => e.successRate > 90.0);
    var sorted := SortDesc(reliable, RateOf);
    assert MostReliable(entries) == Take(sorted, MaxReliable);
    assert e in multiset(sorted) by {
      assert e in reliable;
    }
    OmittedFromTopIsBeaten(sorted, MaxReliable, e);
  }

  /** In a non-increasing sequence, an element left out of the first `n` is
      rated no higher than any of them. */
  lemma OmittedFromTopIsBeaten(sorted: seq<LearnedSelector>, n: nat, e: LearnedSelector)
    requires NonIncreasing(sorted, RateOf) && e in sorted && e !in Take(sorted, n)
    ensures |Take(sorted, n)| == n
    ensures forall i :: 0 <= i < n ==> Take(sorted, n)[i].successRate >= e.successRate
  {
    var r := Take(sorted, n);
    var p :| 0 <= p < |sorted| && sorted[p] == e;
    assert forall q :: 0 <= q < |r| ==> r[q] == sorted[q];
    assert p >= |r|;
    forall i | 0 <= i < n ensures r[i].successRate >= e.successRate {
      assert RateOf(sorted[i]) >= RateOf(sorted[p]);
    }
  }

  datatype ProblemElement = ProblemElement(name: string, successRate: real, url: string)

  function ProblemOf(e: LearnedSelector): ProblemElement {
    ProblemElement(e.elementDescription, e.successRate, e.url)
  }

  predicate IsProblematic(e: LearnedSelector) {
    e.successRate < 50.0
  }

  /** `getProblematicElements`: exactly the entries rated below 50, one
      problem per entry, in map order. */
  function Problematic(entries: seq<LearnedSelector>): (r: seq<ProblemElement>)
    ensures forall e :: e in entries && e.successRate < 50.0 ==> ProblemOf(e) in r
    ensures forall p :: p in r ==> p.successRate < 50.0 && exists e :: e in entries && ProblemOf(e) == p
    ensures |r| == |Filter(entries, IsProblematic)|
    ensures forall i :: 0 <= i < |r| ==> r[i] == ProblemOf(Filter(entries, IsProblematic)[i])
  {
    var low := Filter(entries, IsProblematic);
    var r := seq(|low|, i requires 0 <= i < |low| => ProblemOf(low[i]));
    assert forall e :: e in low ==> ProblemOf(e) in r by {
      forall e | e in low ensures ProblemOf(e) in r {
        var i :| 0 <= i < |low| && low[i] == e;
        assert r[i] == ProblemOf(e);
      }
    }
    assert forall p :: p in r ==> exists e :: e in low && ProblemOf(e) == p by {
      forall p | p in r ensures exists e :: e in low && ProblemOf(e) == p {
        var i :| 0 <= i < |r| && r[i] == p;
        assert low[i] in low;
      }
    }
    r
  }

  function CountSuccesses(history: seq<ExecutionRecord>): (n: nat)
    ensures n <= |history|
  {
    if history == [] then 0
    else CountSuccesses(history[..|history| - 1]) + (if history[|history| - 1].success then 1 else 0)
  }

  /** `calculateOverallSuccessRate`: the percentage of successful runs, 0 for
      an empty history. */
  function OverallSuccessRate(history: seq<ExecutionRecord>): (r: real)
    ensures 0.0 <= r <= 100.0
    ensures history == [] ==> r == 0.0
    ensures history != [] ==> r * |history| as real == 100.0 * CountSuccesses(history) as real
  {
    Rate(CountSuccesses(history), |history| - CountSuccesses(history))
  }

  /** A history of failures only, as this system records it, has rate 0. */
  lemma {:induction false} FailuresOnlyRateZero(history: seq<ExecutionRecord>)
    requires forall i :: 0 <= i < |history| ==> !history[i].success
    ensures OverallSuccessRate(history) == 0.0
  {
    NoSuccessCountsZero(history);
  }

  lemma {:induction false} NoSuccessCountsZero(history: seq<ExecutionRecord>)
    requires forall i :: 0 <= i < |history| ==> !history[i].success
    ensures CountSuccesses(history) == 0
    decreases |history|
  {
    if history != [] {
      NoSuccessCountsZero(history[..|history| - 1]);
    }
  }

  datatype Recommendation = ReviewSelectorStability | AddTestIds

  /** `generateRecommendations` of the learning report. */
  function Recommendations(history: seq<ExecutionRecord>, entries: seq<LearnedSelector>): (r: seq<Recommendation>)
    ensures ReviewSelectorStability in r <==> OverallSuccessRate(history) < 80.0
    ensures AddTestIds in r <==> |Problematic(entries)| > 5
    ensures NoDups(r) && (r != [] && r[0] == AddTestIds ==> |r| == 1)
  {
    (if OverallSuccessRate(history) < 80.0 then [ReviewSelectorStability] else [])
    + (if |Problematic(entries)| > 5 then [AddTestIds] else [])
  }

  datatype LearningReport = LearningReport(
    totalTests: nat,
    successRate: real,
    mostReliableSelectors: seq<LearnedSelector>,
    problematicElements: seq<ProblemElement>,
    recommendations: seq<Recommendation>)

  // ---------------------------------------------------------------------
  // Failure timing

  datatype HourCount = HourCount(hour: int, count: nat)

  function FailureHours(failures: seq<ExecutionRecord>): (r: seq<int>)
    ensures |r| == |failures| && forall i :: 0 <= i < |failures| ==> r[i] == failures[i].hour
  {
    seq(|failures|, i requires 0 <= i < |failures| => failures[i].hour)
  }

  function HoursOf(byHour: seq<HourCount>): (r: seq<int>)
    ensures |r| == |byHour| && forall k :: 0 <= k < |byHour| ==> r[k] == byHour[k].hour
  {
    seq(|byHour|, k requires 0 <= k < |byHour| => byHour[k].hour)
  }

  function Counts(byHour: seq<HourCount>): (r: seq<nat>)
    ensures |r| == |byHour| && forall k :: 0 <= k < |byHour| ==> r[k] == byHour[k].count
  {
    seq(|byHour|, k requires 0 <= k < |byHour| => byHour[k].count)
  }

  function Sum(s: seq<nat>): nat {
    if s == [] then 0 else Sum(s[..|s| - 1]) + s[|s| - 1]
  }

  lemma {:induction false} SumUpdate(s: seq<nat>, k: nat, v: nat)
    requires k < |s|
    ensures Sum(s[k := v]) == Sum(s) - s[k] + v
    decreases |s|
  {
    var t := s[k := v];
    if k == |s| - 1 {
      assert t[..|t| - 1] == s[..|s| - 1];
    } else {
      assert t[..|t| - 1] == s[..|s| - 1][k := v];
      SumUpdate(s[..|s| - 1], k, v);
    }
  }

  /** `byHour` holds the hours of `hours` in order of first occurrence, each
      with its number of occurrences. */
  ghost predicate Groups(byHour: seq<HourCount>, hours: seq<int>) {
    && HoursOf(byHour) == Dedup(hours)
    && (forall k :: 0 <= k < |byHour| ==> byHour[k].count == multiset(hours)[byHour[k].hour])
    && Sum(Counts(byHour)) == |hours|
  }

  lemma GroupsBump(byHour: seq<HourCount>, hours: seq<int>, p: nat)
    requires Groups(byHour, hours) && p < |byHour|
    ensures Groups(byHour[p := HourCount(byHour[p].hour, byHour[p].count + 1)], hours + [byHour[p].hour])
  {
    var hour := byHour[p].hour;
    var updated := byHour[p := HourCount(hour, byHour[p].count + 1)];
    assert hour in Dedup(hours) by {
      assert HoursOf(byHour)[p] == hour;
    }
    DedupSnoc(hours, hour);
    assert HoursOf(updated) == HoursOf(byHour);
    assert Counts(updated) == Counts(byHour)[p := byHour[p].count + 1];
    SumUpdate(Counts(byHour), p, byHour[p].count + 1);
    forall k | 0 <= k < |updated|
      ensures updated[k].count == multiset(hours + [hour])[updated[k].hour]
    {
      if k != p {
        assert HoursOf(byHour)[k] != HoursOf(byHour)[p];
      }
    }
  }

  lemma GroupsAppend(byHour: seq<HourCount>, hours: seq<int>, hour: int)
    requires Groups(byHour, hours)
    requires forall k :: 0 <= k < |byHour| ==> byHour[k].hour != hour
    ensures Groups(byHour + [HourCount(hour, 1)], hours + [hour])
  {
    var extended := byHour + [HourCount(hour, 1)];
    assert hour !in hours by {
      assert hour !in HoursOf(byHour);
    }
    assert HoursOf(extended) == Dedup(hours + [hour]) by {
      DedupSnoc(hours, hour);
      assert HoursOf(extended) == HoursOf(byHour) + [hour];
    }
    forall k | 0 <= k < |extended|
      ensures extended[k].count == multiset(hours + [hour])[extended[k].hour]
    {
      if k < |byHour| {
        assert extended[k] == byHour[k];
      }
    }
    assert Sum(Counts(extended)) == |hours + [hour]| by {
      assert Counts(extended)[..|byHour|] == Counts(byHour);
    }
  }

  /** One iteration of the grouping: bump the hour's entry, or append a new
      entry with count 1. */
  method CountHour(byHour: seq<HourCount>, ghost hours: seq<int>, hour: int) returns (r: seq<HourCount>)
    requires Groups(byHour, hours)
    ensures Groups(r, hours + [hour])
  {
    var at := FindFirst(byHour, (e: HourCount) => e.hour == hour);
    if at.Some? {
      GroupsBump(byHour, hours, at.value);
      r := byHour[at.value := HourCount(hour, byHour[at.value].count + 1)];
    } else {
      GroupsAppend(byHour, hours, hour);
      r := byHour + [HourCount(hour, 1)];
    }
  }

  /** `hasTimePattern`: some count exceeds twice the mean count. An empty
      list has none (the source's mean is then NaN). */
  function HasTimePattern(counts: seq<nat>): bool {
    |counts| > 0 &&
    exists i :: 0 <= i < |counts| && counts[i] as real > (Sum(counts) as real / |counts| as real) * 2.0
  }

  /** The same test in integers: a count times the number of hours exceeds
      twice the total. */
  lemma HasTimePatternIff(counts: seq<nat>)
    ensures HasTimePattern(counts) <==>
              exists i :: 0 <= i < |counts| && counts[i] * |counts| > 2 * Sum(counts)
    ensures counts == [] ==> !HasTimePattern(counts)
  {
    if |counts| > 0 {
      forall i | 0 <= i < |counts|
        ensures counts[i] as real > (Sum(counts) as real / |counts| as real) * 2.0
                <==> counts[i] * |counts| > 2 * Sum(counts)
      {
        AboveTwiceMean(counts[i], Sum(counts), |counts|);
      }
    }
  }

  lemma AboveTwiceMean(v: nat, total: nat, n: nat)
    requires n > 0
    ensures v as real > (total as real / n as real) * 2.0 <==> v * n > 2 * total
  {
    var mean := total as real / n as real;
    assert mean * n as real == total as real;
    assert (v * n) as real == v as real * n as real;
    assert (2 * total) as real == 2.0 * total as real;
    assert v as real * n as real - 2.0 * total as real == (v as real - mean * 2.0) * n as real;
  }

  /** The failures cluster in time: the failures of some hour number more
      than twice the mean over the hours that saw a failure. */
  predicate FailuresClusterInTime(hours: seq<int>) {
    exists h :: h in hours && multiset(hours)[h] * |Dedup(hours)| > 2 * |hours|
  }

  /** Whatever grouping `GroupFailuresByHour` returns, `hasTimePattern` of its
      counts is `FailuresClusterInTime` of the hours. */
  lemma TimePatternMeansCluster(failures: seq<ExecutionRecord>, byHour: seq<HourCount>)
    requires Groups(byHour, FailureHours(failures))
    ensures HasTimePattern(Counts(byHour)) <==> FailuresClusterInTime(FailureHours(failures))
  {
    var hours := FailureHours(failures);
    var counts := Counts(byHour);
    HasTimePatternIff(counts);
    if HasTimePattern(counts) {
      var i :| 0 <= i < |counts| && counts[i] * |counts| > 2 * Sum(counts);
      var h := byHour[i].hour;
      assert HoursOf(byHour)[i] == h;
      assert h in hours;
    }
    if FailuresClusterInTime(hours) {
      var h :| h in hours && multiset(hours)[h] * |Dedup(hours)| > 2 * |hours|;
      assert h in HoursOf(byHour);
      var i :| 0 <= i < |byHour| && HoursOf(byHour)[i] == h;
      assert counts[i] * |counts| > 2 * Sum(counts);
    }
  }

  datatype Suggestion = AdjustTimeouts | UseSpecificSelectors(name: string, successRate: real)

  function LowSuccessSuggestions(problems: seq<ProblemElement>): (r: seq<Suggestion>)
    ensures |r| == |problems|
    ensures forall i :: 0 <= i < |problems| ==> r[i] == UseSpecificSelectors(problems[i].name, problems[i].successRate)
  {
    seq(|problems|, i requires 0 <= i < |problems| => UseSpecificSelectors(problems[i].name, problems[i].successRate))
  }

  lemma LowSuccessSnoc(problems: seq<ProblemElement>, i: nat)
    requires i < |problems|
    ensures LowSuccessSuggestions(problems[..i + 1])
            == LowSuccessSuggestions(problems[..i]) + [UseSpecificSelectors(problems[i].name, problems[i].successRate)]
  {
    assert LowSuccessSuggestions(problems[..i + 1])[..i] == LowSuccessSuggestions(problems[..i]);
  }

  /** The recorded failures of the page whose URL contains `path`. */
  function FailuresAt(history: seq<ExecutionRecord>, path: string): (r: seq<ExecutionRecord>)
    ensures |r| <= |history|
    ensures forall h :: h in r <==> h in history && !h.success && Contains(h.environment.url, path)
  {
    Filter(history, (h: ExecutionRecord) => Contains(h.environment.url, path) && !h.success)
  }

  // ---------------------------------------------------------------------
  // The class

  class LearningSystem {
    var selectorsDB: KnowledgeMap
    var executionHistory: seq<ExecutionRecord>

    ghost predicate Valid()
      reads this
    {
      ValidKnowledge(selectorsDB)
    }

    /** A system that found no stored knowledge. */
    constructor ()
      ensures Valid()
      ensures selectorsDB == KnowledgeMap([], map[]) && executionHistory == []
    {
      selectorsDB := KnowledgeMap([], map[]);
      executionHistory := [];
    }

    /** `learnFromSuccess`, without the save. */
    method LearnFromSuccess(testName: string, aiAssets: Assets, pageUrl: string, now: int)
      requires Valid()
      modifies this
      ensures Valid()
      ensures selectorsDB == LearnAll(old(selectorsDB), pageUrl, aiAssets.pageObject.locators, now)
      ensures executionHistory == old(executionHistory)
    {
      var locators := aiAssets.pageObject.locators;
      for i := 0 to |locators|
        invariant selectorsDB == LearnAll(old(selectorsDB), pageUrl, locators[..i], now)
        invariant executionHistory == old(executionHistory)
      {
        var locator := locators[i];
        var key := EntryKey(pageUrl, locator.name);
        var existing := EntryOrNew(selectorsDB, key, pageUrl, locator.name, now);
        var working := AddWorkingSelectors(existing.workingSelectors, locator.selectors);
        existing := existing.(workingSelectors := working);
        existing := existing.(successRate := CalculateSuccessRate(existing), lastUpdated := now);
        var updated := Put(selectorsDB, key, existing);
        assert updated == LearnAll(old(selectorsDB), pageUrl, locators[..i + 1], now) by {
          LearnAllSnoc(old(selectorsDB), pageUrl, locators[..i + 1], now);
          assert locators[..i + 1][..i] == locators[..i];
        }
        selectorsDB := updated;
      }
      assert locators[..|locators|] == locators;
      LearnAllKeepsValid(old(selectorsDB), pageUrl, locators, now);
    }

    /** The inner loop of `learnFromSuccess`: push each selector key that is
        not yet a working one. */
    method AddWorkingSelectors(workingSelectors: seq<string>, selectors: seq<Selector>) returns (working: seq<string>)
      ensures working == AppendMissing(workingSelectors, SelectorKeys(selectors))
    {
      var keys := SelectorKeys(selectors);
      working := workingSelectors;
      for j := 0 to |selectors|
        invariant working == AppendMissing(workingSelectors, keys[..j])
      {
        assert keys[..j + 1][..j] == keys[..j];
        var selectorString := SelectorToString(selectors[j]);
        if selectorString !in working {
          working := working + [selectorString];
        }
      }
      assert keys[..|selectors|] == keys;
    }

    /** `learnFromFailure`, without the save: the knowledge base changes as
        `RecordFailedSelectors` says, and one failure record is appended in
        every case. */
    method LearnFromFailure(testName: string, analysis: Analyzer.FailureAnalysis, aiAssets: Assets,
                            pageUrl: string, now: int, hour: int, browserVar: Option<string>)
      requires Valid()
      modifies this
      ensures Valid()
      ensures selectorsDB == RecordFailedSelectors(old(selectorsDB), pageUrl, analysis, aiAssets.pageObject.locators, now)
      ensures executionHistory == old(executionHistory) +
                [ExecutionRecord(testName, now, hour, false, 0, Some(analysis), CaptureEnvironment(pageUrl, browserVar))]
    {
      var nameMatch := FailedElementName(analysis.failedStep);
      if nameMatch.Some? && analysis.failureType == Analyzer.SelectorFailure {
        var elementName := nameMatch.value;
        var key := EntryKey(pageUrl, elementName);
        var existing := EntryOrNew(selectorsDB, key, pageUrl, elementName, now);
        var locatorData := LocatorNamed(aiAssets.pageObject.locators, elementName);
        if locatorData.Some? {
          var locator := aiAssets.pageObject.locators[locatorData.value];
          var failed := AddFailedSelectors(existing.failedSelectors, SelectorKeys(locator.selectors));
          existing := existing.(failedSelectors := failed);
          existing := existing.(successRate := CalculateSuccessRate(existing), lastUpdated := now);
          var updated := Put(selectorsDB, key, existing);
          assert updated == MarkFailed(selectorsDB, pageUrl, elementName, locator, now);
          selectorsDB := updated;
        }
      }
      executionHistory := executionHistory +
        [ExecutionRecord(testName, now, hour, false, 0, Some(analysis), CaptureEnvironment(pageUrl, browserVar))];
    }

    /** The `forEach` of `learnFromFailure`: push each key that is not yet a
        failed one. */
    method AddFailedSelectors(failedSelectors: seq<string>, keys: seq<string>) returns (failed: seq<string>)
      ensures failed == AppendMissing(failedSelectors, keys)
    {
      failed := failedSelectors;
      for j := 0 to |keys|
        invariant failed == AppendMissing(failedSelectors, keys[..j])
      {
        assert keys[..j + 1][..j] == keys[..j];
        if keys[j] !in failed {
          failed := failed + [keys[j]];
        }
      }
      assert keys[..|keys|] == keys;
    }

    /** `enhanceAIAssets`: a rewritten copy of the document in which each
        page-object locator is enhanced with the knowledge for its key. */
    method EnhanceAIAssets(aiAssets: Assets, pageUrl: string) returns (enhanced: Assets)
      ensures enhanced.additionalPageObjects == aiAssets.additionalPageObjects
      ensures enhanced.testSteps == aiAssets.testSteps
      ensures enhanced.pageObject.className == aiAssets.pageObject.className
      ensures |enhanced.pageObject.locators| == |aiAssets.pageObject.locators|
      ensures forall i :: 0 <= i < |aiAssets.pageObject.locators| ==>
                var loc := aiAssets.pageObject.locators[i];
                enhanced.pageObject.locators[i] == EnhanceLocator(loc, Get(selectorsDB, EntryKey(pageUrl, loc.name)))
    {
      var original := aiAssets.pageObject.locators;
      var locators := original;
      for i := 0 to |locators|
        invariant |locators| == |original|
        invariant forall j :: 0 <= j < i ==>
                    locators[j] == EnhanceLocator(original[j], Get(selectorsDB, EntryKey(pageUrl, original[j].name)))
        invariant forall j :: i <= j < |locators| ==> locators[j] == original[j]
      {
        var locator := locators[i];
        var knowledge := Get(selectorsDB, EntryKey(pageUrl, locator.name));
        if knowledge.Some? {
          var k := knowledge.value;
          var combinedSelectors := WorkingAsSelectors(k) + KeptSelectors(locator, k);
          locators := locators[i := locator.(selectors := Take(combinedSelectors, MaxSelectors),
                                             metadata := Some(Metadata(k.successRate, k.lastUpdated, true)))];
        }
      }
      enhanced := aiAssets.(pageObject := aiAssets.pageObject.(locators := locators));
    }

    /** `generateLearningReport`. */
    function GenerateLearningReport(): (r: LearningReport)
      reads this
      requires Valid()
      ensures r.totalTests == |executionHistory|
      ensures r.successRate == OverallSuccessRate(executionHistory)
      ensures r.mostReliableSelectors == MostReliable(Values(selectorsDB))
      ensures r.problematicElements == Problematic(Values(selectorsDB))
      ensures |r.mostReliableSelectors| <= MaxReliable
      ensures ReviewSelectorStability in r.recommendations <==> r.successRate < 80.0
      ensures AddTestIds in r.recommendations <==> |r.problematicElements| > 5
    {
      var entries := Values(selectorsDB);
      LearningReport(
        |executionHistory|,
        OverallSuccessRate(executionHistory),
        MostReliable(entries),
        Problematic(entries),
        Recommendations(executionHistory, entries))
    }

    /** `groupFailuresByHour`: the hours in order of first failure, each with
        its number of failures. */
    method GroupFailuresByHour(failures: seq<ExecutionRecord>) returns (byHour: seq<HourCount>)
      ensures HoursOf(byHour) == Dedup(FailureHours(failures))
      ensures forall k :: 0 <= k < |byHour| ==> byHour[k].count == multiset(FailureHours(failures))[byHour[k].hour]
      ensures Sum(Counts(byHour)) == |failures|
    {
      byHour := [];
      for i := 0 to |failures|
        invariant Groups(byHour, FailureHours(failures[..i]))
      {
        assert FailureHours(failures[..i + 1]) == FailureHours(failures[..i]) + [failures[i].hour];
        byHour := CountHour(byHour, FailureHours(failures[..i]), failures[i].hour);
      }
      assert failures[..|failures|] == failures;
    }

    /** The `forEach` of `suggestImprovements` over the problematic elements. */
    method AddLowSuccessSuggestions(head: seq<Suggestion>, problems: seq<ProblemElement>) returns (suggestions: seq<Suggestion>)
      ensures suggestions == head + LowSuccessSuggestions(problems)
    {
      suggestions := head;
      for i := 0 to |problems|
        invariant suggestions == head + LowSuccessSuggestions(problems[..i])
      {
        var element := problems[i];
        LowSuccessSnoc(problems, i);
        suggestions := suggestions + [UseSpecificSelectors(element.name, element.successRate)];
      }
      assert problems[..|problems|] == problems;
    }

    /** `suggestImprovements` for the test whose page path is `testPath`:
        nothing when no recorded failure concerns it; otherwise the timing
        advice when its failures cluster in time, then one piece of advice
        per problematic element. */
    method SuggestImprovements(testPath: string) returns (suggestions: seq<Suggestion>)
      requires Valid()
      ensures var failures := FailuresAt(executionHistory, testPath);
              && (failures == [] ==> suggestions == [])
              && (failures != [] ==>
                    suggestions == (if FailuresClusterInTime(FailureHours(failures)) then [AdjustTimeouts] else [])
                                   + LowSuccessSuggestions(Problematic(Values(selectorsDB))))
    {
      suggestions := [];
      var failures := FailuresAt(executionHistory, testPath);
      if |failures| > 0 {
        var failuresByHour := GroupFailuresByHour(failures);
        TimePatternMeansCluster(failures, failuresByHour);
        if HasTimePattern(Counts(failuresByHour)) {
          suggestions := suggestions + [AdjustTimeouts];
        }
        assert suggestions == if FailuresClusterInTime(FailureHours(failures)) then [AdjustTimeouts] else [];
        var problematicElements := Problematic(Values(selectorsDB));
        suggestions := AddLowSuccessSuggestions(suggestions, problematicElements);
      }
    }
  }
}
