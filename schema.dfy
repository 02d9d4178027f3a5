/** The asset document the LLM produces and every component consumes:
    a main page object, optional additional page objects and the test steps.
    JSON values that the code only re-serialises (a selector's `options`, a
    step's `params`) are kept as their `JSON.stringify` text. */
module Schema {
  import opened Common

  /** `{type, value, options?}`; `kind` is the JSON field `type`. `options` is
      the JSON text of a truthy `options` value, `None` when it is absent or
      falsy. */
  datatype Selector = Selector(kind: string, value: string, options: Option<string>)

  /** What `enhanceAIAssets` attaches to a locator it rewrote. */
  datatype Metadata = Metadata(confidence: real, lastSuccess: int, enhanced: bool)

  datatype Locator = Locator(
    name: string,
    elementType: Option<string>,
    actions: seq<string>,
    selectors: seq<Selector>,
    waitBefore: Option<string>,
    validateAfter: bool,
    metadata: Option<Metadata>)

  datatype PageObject = PageObject(className: string, locators: seq<Locator>)

  /** One test step; `page` is `None` when the field is missing, and each
      element of `params` is the JSON text of one parameter. */
  datatype TestStep = TestStep(page: Option<string>, action: string, params: seq<string>)

  /** The document; a missing `additionalPageObjects` is the empty sequence. */
  datatype Assets = Assets(pageObject: PageObject, additionalPageObjects: seq<PageObject>, testSteps: seq<TestStep>)
}
