/** The post-processing half of the UI pattern detector: the confidence
    ordering of the detected patterns, the selector chosen for a matched
    element, and the test-writing recommendations derived from the patterns.
    The browser-driven detectors themselves are outside the model: their
    results are inputs. */
module UiPatterns {
  import opened Common
  import opened Text
  import opened Seqs

  datatype PatternKind = Form | Modal | List | Navigation | Loading | Wizard | Table | Search

  /** A matched element. Of its attribute record only the two flags that the
      recommendations read are kept, as their truthiness. */
  datatype PatternElement = PatternElement(role: string, selector: string, hasPagination: bool, hasFilters: bool)

  datatype PatternBehavior = PatternBehavior(
    hasValidation: bool,
    isAsync: bool,
    hasMultiStep: bool,
    requiresAuth: bool,
    hasConditionalFields: bool)

  datatype DetectedPattern = DetectedPattern(
    kind: PatternKind,
    confidence: real,
    elements: seq<PatternElement>,
    behavior: PatternBehavior)

  function Confidence(p: DetectedPattern): real {
    p.confidence
  }

  // ---------------------------------------------------------------------
  // Ordering

  /** The patterns of the six detectors, collected in the order they run and
      sorted by `(a, b) => b.confidence - a.confidence`. */
  function DetectPatterns(
    forms: seq<DetectedPattern>, modals: seq<DetectedPattern>, loaders: seq<DetectedPattern>,
    navigation: seq<DetectedPattern>, lists: seq<DetectedPattern>, wizards: seq<DetectedPattern>
  ): (r: seq<DetectedPattern>)
    ensures NonIncreasing(r, Confidence)
    ensures multiset(r) == multiset(forms + modals + loaders + navigation + lists + wizards)
  {
    SortDesc(forms + modals + loaders + navigation + lists + wizards, Confidence)
  }

  /** The sort is stable, so patterns the detectors already report from the
      most to the least confident keep the detectors' order. */
  lemma DetectPatternsKeepsOrderedInput(
    forms: seq<DetectedPattern>, modals: seq<DetectedPattern>, loaders: seq<DetectedPattern>,
    navigation: seq<DetectedPattern>, lists: seq<DetectedPattern>, wizards: seq<DetectedPattern>)
    requires NonIncreasing(forms + modals + loaders + navigation + lists + wizards, Confidence)
    ensures DetectPatterns(forms, modals, loaders, navigation, lists, wizards)
      == forms + modals + loaders + navigation + lists + wizards
  {
    SortDescOfSorted(forms + modals + loaders + navigation + lists + wizards, Confidence);
  }

  // ---------------------------------------------------------------------
  // Selector of a matched element

  /** An attribute value is truthy when it is present and not empty. */
  predicate Truthy(v: Option<string>) {
    v.Some? && v.value != ""
  }

  /** `#id` when the element has an id, else `.` and the first space-separated
      token of its class attribute, else its lower-cased tag name. */
  function GetSelector(id: Option<string>, className: Option<string>, tagName: string): string {
    if Truthy(id) then "#" + id.value
    else if Truthy(className) then "." + Split(className.value, ' ')[0]
    else Lower(tagName)
  }

  lemma SplitHead(s: string, c: char)
    ensures Split(s, c)[0] == s[..IndexOf(s, c)]
  {
  }

  /** What each branch of the selector is made of. With a class and no id the
      selector is `.` and the class attribute up to its first space. */
  lemma SelectorByAttribute(id: Option<string>, className: Option<string>, tagName: string)
    ensures Truthy(id) ==> GetSelector(id, className, tagName) == "#" + id.value
    ensures !Truthy(id) && Truthy(className) ==>
      var r := GetSelector(id, className, tagName);
      var token := r[1..];
      r[0] == '.' && token <= className.value && ' ' !in token
      && (|token| == |className.value| || className.value[|token|] == ' ')
    ensures !Truthy(id) && !Truthy(className) ==> GetSelector(id, className, tagName) == Lower(tagName)
  {
    if !Truthy(id) && Truthy(className) {
      SplitHead(className.value, ' ');
    }
  }

  /** A class token written first in the class attribute is what the class
      selector names, whatever classes follow it. */
  lemma ClassSelectorNamesFirstToken(id: Option<string>, token: string, rest: string, tagName: string)
    requires !Truthy(id)
    requires token != [] && ' ' !in token
    ensures GetSelector(id, Some(token), tagName) == "." + token
    ensures GetSelector(id, Some(token + " " + rest), tagName) == "." + token
  {
    var s := token + " " + rest;
    assert s[..|token|] == token;
    IndexOfAt(s, ' ', |token|);
    SplitHead(s, ' ');
    SplitHead(token, ' ');
  }

  /** A class attribute that starts with a space yields the bare selector `.`:
      the first token of the split is empty. */
  lemma LeadingSpaceGivesBareDot(id: Option<string>, classes: string, tagName: string)
    requires !Truthy(id)
    ensures GetSelector(id, Some(" " + classes), tagName) == "."
  {
    var s := " " + classes;
    IndexOfAt(s, ' ', 0);
    SplitHead(s, ' ');
  }

  /** For a tag name that starts with a letter, the first character of the
      selector tells which attribute it came from. */
  lemma SelectorKindIsVisible(id: Option<string>, className: Option<string>, tagName: string)
    requires tagName != [] && (IsUpper(tagName[0]) || IsLower(tagName[0]))
    ensures GetSelector(id, className, tagName)[0] == '#' <==> Truthy(id)
    ensures GetSelector(id, className, tagName)[0] == '.' <==> !Truthy(id) && Truthy(className)
  {
    if !Truthy(id) && !Truthy(className) {
      assert Lower(tagName)[0] == ToLower(tagName[0]);
    }
  }

  // ---------------------------------------------------------------------
  // Recommendations

  const ValidateFieldsAdvice := "Implementar validación de campos antes de envío"
  const FormStepsAdvice := "Manejar navegación entre pasos del formulario"
  const ConditionalFieldsAdvice := "Detectar y manejar campos condicionales dinámicamente"
  const ModalWaitAdvice := "Implementar esperas para apertura/cierre de modales"
  const ModalVisibleAdvice := "Verificar que el modal esté visible antes de interactuar"
  const LoaderWaitAdvice := "Esperar a que los elementos de carga desaparezcan"
  const LoadStateAdvice := "Implementar waitForLoadState o esperas personalizadas"
  const PaginationAdvice := "Manejar paginación para acceder a todos los elementos"
  const FiltersAdvice := "Probar funcionalidad de filtros y búsqueda"
  const WizardFlowAdvice := "Implementar flujo completo de navegación por pasos"
  const WizardStateAdvice := "Validar estado entre transiciones de pasos"

  /** A list pattern's advice reads its first element, which must exist. */
  predicate Readable(p: DetectedPattern) {
    p.kind != List || p.elements != []
  }

  predicate AllReadable(ps: seq<DetectedPattern>) {
    forall i :: 0 <= i < |ps| ==> Readable(ps[i])
  }

  /** The two fixed messages of the kinds whose advice does not depend on
      any flag. */
  function FixedAdvice(kind: PatternKind): seq<string> {
    match kind
    case Modal => [ModalWaitAdvice, ModalVisibleAdvice]
    case Loading => [LoaderWaitAdvice, LoadStateAdvice]
    case Wizard => [WizardFlowAdvice, WizardStateAdvice]
    case _ => []
  }

  function If(b: bool, m: string): seq<string> {
    if b then [m] else []
  }

  /** The messages one pattern pushes, in push order. A list pattern without
      elements makes the source throw instead; `GenerateRecommendations`
      stops before it, so its empty contribution here is never used. */
  function Contribution(p: DetectedPattern): seq<string> {
    match p.kind
    case Form =>
      If(p.behavior.hasValidation, ValidateFieldsAdvice)
      + If(p.behavior.hasMultiStep, FormStepsAdvice)
      + If(p.behavior.hasConditionalFields, ConditionalFieldsAdvice)
    case List =>
      if p.elements == [] then []
      else If(p.elements[0].hasPagination, PaginationAdvice) + If(p.elements[0].hasFilters, FiltersAdvice)
    case _ => FixedAdvice(p.kind)
  }

  /** Everything the loop pushes for `ps`, before deduplication. */
  function Contributions(ps: seq<DetectedPattern>): seq<string> {
    Flatten(ps, Contribution)
  }

  function Recommendations(ps: seq<DetectedPattern>): seq<string>
    requires AllReadable(ps)
  {
    Dedup(Contributions(ps))
  }

  /** The `TypeError` raised by a list pattern without elements, and where. */
  datatype RecommendationError = EmptyListPattern(index: nat)

  /** Pushes the messages of one pattern onto `recommendations`. */
  method PushAdvice(recommendations: seq<string>, pattern: DetectedPattern) returns (r: seq<string>)
    requires Readable(pattern)
    ensures r == recommendations + Contribution(pattern)
  {
    r := recommendations;
    match pattern.kind {
      case Form =>
        if pattern.behavior.hasValidation {
          r := r + [ValidateFieldsAdvice];
        }
        if pattern.behavior.hasMultiStep {
          r := r + [FormStepsAdvice];
        }
        if pattern.behavior.hasConditionalFields {
          r := r + [ConditionalFieldsAdvice];
        }
      case Modal =>
        r := r + [ModalWaitAdvice];
        r := r + [ModalVisibleAdvice];
      case Loading =>
        r := r + [LoaderWaitAdvice];
        r := r + [LoadStateAdvice];
      case List =>
        if pattern.elements[0].hasPagination {
          r := r + [PaginationAdvice];
        }
        if pattern.elements[0].hasFilters {
          r := r + [FiltersAdvice];
        }
      case Wizard =>
        r := r + [WizardFlowAdvice];
        r := r + [WizardStateAdvice];
      case _ =>
    }
  }

  /** `generateRecommendations`: the messages of all patterns, deduplicated;
      a list pattern without elements stops it with an error. */
  method GenerateRecommendations(patterns: seq<DetectedPattern>)
    returns (r: Result<seq<string>, RecommendationError>)
    ensures r.Success? <==> AllReadable(patterns)
    ensures r.Success? ==> r.value == Recommendations(patterns)
    ensures r.Failure? ==>
      var k := r.error.index;
      k < |patterns| && !Readable(patterns[k]) && AllReadable(patterns[..k])
  {
    var recommendations: seq<string> := [];
    for i := 0 to |patterns|
      invariant AllReadable(patterns[..i])
      invariant recommendations == Contributions(patterns[..i])
    {
      var pattern := patterns[i];
      if !Readable(pattern) {
        return Failure(EmptyListPattern(i));
      }
      recommendations := PushAdvice(recommendations, pattern);
      assert patterns[..i + 1] == patterns[..i] + [pattern];
      FlattenSnoc(patterns[..i], pattern, Contribution);
    }
    assert patterns[..|patterns|] == patterns;
    return Success(Dedup(recommendations));
  }

  /** The recommendations repeat no message. */
  lemma RecommendationsDistinct(ps: seq<DetectedPattern>)
    requires AllReadable(ps)
    ensures NoDups(Recommendations(ps))
  {
  }

  /** Messages appear in the order in which they were first pushed. */
  lemma RecommendationsInPushOrder(ps: seq<DetectedPattern>)
    requires AllReadable(ps)
    ensures forall i, j :: 0 <= i < j < |Recommendations(ps)| ==>
      FirstIndex(Contributions(ps), Recommendations(ps)[i])
      < FirstIndex(Contributions(ps), Recommendations(ps)[j])
  {
    DedupKeepsFirstOccurrenceOrder(Contributions(ps));
  }

  /** A message is recommended exactly when some pattern contributes it. */
  lemma RecommendedIffContributed(ps: seq<DetectedPattern>, m: string)
    requires AllReadable(ps)
    ensures m in Recommendations(ps) <==> exists i :: 0 <= i < |ps| && m in Contribution(ps[i])
  {
    FlattenMember(ps, Contribution, m);
  }

  /** A message that exactly the patterns satisfying `cond` contribute is
      recommended exactly when one of them was detected. */
  lemma RecommendedIffSomePattern(ps: seq<DetectedPattern>, m: string, cond: DetectedPattern -> bool)
    requires AllReadable(ps)
    requires forall i :: 0 <= i < |ps| ==> (m in Contribution(ps[i]) <==> cond(ps[i]))
    ensures m in Recommendations(ps) <==> exists i :: 0 <= i < |ps| && cond(ps[i])
  {
    RecommendedIffContributed(ps, m);
  }

  predicate ValidatingForm(p: DetectedPattern) {
    p.kind == Form && p.behavior.hasValidation
  }

  predicate MultiStepForm(p: DetectedPattern) {
    p.kind == Form && p.behavior.hasMultiStep
  }

  predicate ConditionalForm(p: DetectedPattern) {
    p.kind == Form && p.behavior.hasConditionalFields
  }

  predicate PaginatedList(p: DetectedPattern) {
    p.kind == List && p.elements != [] && p.elements[0].hasPagination
  }

  predicate FilteredList(p: DetectedPattern) {
    p.kind == List && p.elements != [] && p.elements[0].hasFilters
  }

  lemma ValidationAdviceSource(p: DetectedPattern)
    ensures ValidateFieldsAdvice in Contribution(p) <==> ValidatingForm(p)
  {
  }

  lemma FormStepsAdviceSource(p: DetectedPattern)
    ensures FormStepsAdvice in Contribution(p) <==> MultiStepForm(p)
  {
  }

  lemma ConditionalFieldsAdviceSource(p: DetectedPattern)
    ensures ConditionalFieldsAdvice in Contribution(p) <==> ConditionalForm(p)
  {
  }

  lemma PaginationAdviceSource(p: DetectedPattern)
    ensures PaginationAdvice in Contribution(p) <==> PaginatedList(p)
  {
  }

  lemma FiltersAdviceSource(p: DetectedPattern)
    ensures FiltersAdvice in Contribution(p) <==> FilteredList(p)
  {
  }

  /** Form advice follows the form's flags: each of the three form messages
      is recommended exactly when some form pattern has its flag set. */
  lemma FormAdviceFollowsFlags(ps: seq<DetectedPattern>)
    requires AllReadable(ps)
    ensures ValidateFieldsAdvice in Recommendations(ps) <==> exists i :: 0 <= i < |ps| && ValidatingForm(ps[i])
    ensures FormStepsAdvice in Recommendations(ps) <==> exists i :: 0 <= i < |ps| && MultiStepForm(ps[i])
    ensures ConditionalFieldsAdvice in Recommendations(ps) <==> exists i :: 0 <= i < |ps| && ConditionalForm(ps[i])
  {
    forall i | 0 <= i < |ps|
      ensures ValidateFieldsAdvice in Contribution(ps[i]) <==> ValidatingForm(ps[i])
      ensures FormStepsAdvice in Contribution(ps[i]) <==> MultiStepForm(ps[i])
      ensures ConditionalFieldsAdvice in Contribution(ps[i]) <==> ConditionalForm(ps[i])
    {
      ValidationAdviceSource(ps[i]);
      FormStepsAdviceSource(ps[i]);
      ConditionalFieldsAdviceSource(ps[i]);
    }
    RecommendedIffSomePattern(ps, ValidateFieldsAdvice, ValidatingForm);
    RecommendedIffSomePattern(ps, FormStepsAdvice, MultiStepForm);
    RecommendedIffSomePattern(ps, ConditionalFieldsAdvice, ConditionalForm);
  }

  /** List advice follows the first element's flags. */
  lemma ListAdviceFollowsFirstElement(ps: seq<DetectedPattern>)
    requires AllReadable(ps)
    ensures PaginationAdvice in Recommendations(ps) <==> exists i :: 0 <= i < |ps| && PaginatedList(ps[i])
    ensures FiltersAdvice in Recommendations(ps) <==> exists i :: 0 <= i < |ps| && FilteredList(ps[i])
  {
    forall i | 0 <= i < |ps|
      ensures PaginationAdvice in Contribution(ps[i]) <==> PaginatedList(ps[i])
      ensures FiltersAdvice in Contribution(ps[i]) <==> FilteredList(ps[i])
    {
      PaginationAdviceSource(ps[i]);
      FiltersAdviceSource(ps[i]);
    }
    RecommendedIffSomePattern(ps, PaginationAdvice, PaginatedList);
    RecommendedIffSomePattern(ps, FiltersAdvice, FilteredList);
  }

  predicate HasFixedAdvice(kind: PatternKind) {
    kind == Modal || kind == Loading || kind == Wizard
  }

  lemma FixedAdviceSource(p: DetectedPattern, kind: PatternKind, m: string)
    requires HasFixedAdvice(kind) && m in FixedAdvice(kind)
    ensures m in Contribution(p) <==> p.kind == kind
  {
  }

  /** Modal, loading and wizard patterns always bring both of their fixed
      messages, and nothing else brings them. */
  lemma FixedAdviceFollowsKind(ps: seq<DetectedPattern>, kind: PatternKind, m: string)
    requires AllReadable(ps) && HasFixedAdvice(kind) && m in FixedAdvice(kind)
    ensures m in Recommendations(ps) <==> exists i :: 0 <= i < |ps| && ps[i].kind == kind
  {
    var ofKind := (p: DetectedPattern) => p.kind == kind;
    forall i | 0 <= i < |ps| ensures m in Contribution(ps[i]) <==> ofKind(ps[i]) {
      FixedAdviceSource(ps[i], kind, m);
    }
    RecommendedIffSomePattern(ps, m, ofKind);
  }

  /** Navigation, table and search patterns bring no advice at all. */
  lemma {:induction false} SilentKindsRecommendNothing(ps: seq<DetectedPattern>)
    requires forall i :: 0 <= i < |ps| ==> ps[i].kind in {Navigation, Table, Search}
    ensures AllReadable(ps) && Recommendations(ps) == []
    decreases |ps|
  {
    if ps != [] {
      var p := ps[..|ps| - 1];
      assert forall i :: 0 <= i < |p| ==> p[i] == ps[i];
      SilentKindsRecommendNothing(p);
    }
  }
}
