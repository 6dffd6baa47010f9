/**
 * The decisions `PlaywrightWrapper` (core/PlaywrightWrapper.ts) makes on top
 * of the browser: which page is current, the class-wide slot for a newly
 * opened tab, the wait table, which dropdown option is used, how locators
 * become selectors, and the frame and radio-button fallbacks.
 *
 * The browser is abstract: a page is an object with the set of checked
 * controls and a count of `check` calls, and a context holds the list of
 * open pages. The element counts and checked states the browser would
 * report are parameters.
 */
module PlaywrightWrapper {
  import opened Wrappers

  // ---------------------------------------------------------------------------
  // the enumerations of core/IPlaywrightWrapper.ts

  datatype WaitType = MinWait | MediumWait | MaxWait

  function WaitTypeName(w: WaitType): string
  {
    match w
    case MinWait => "minWait"
    case MediumWait => "mediumWait"
    case MaxWait => "maxWait"
  }

  /** `WaitTypes`. */
  const WaitTypeNames: seq<string> := ["minWait", "mediumWait", "maxWait"]

  datatype ElementAttribute = Label | Placeholder | Text | Title | AltText | Id | Class

  function AttributeName(a: ElementAttribute): string
  {
    match a
    case Label => "LABEL"
    case Placeholder => "PLACEHOLDER"
    case Text => "TEXT"
    case Title => "TITLE"
    case AltText => "ALTTEXT"
    case Id => "ID"
    case Class => "CLASS"
  }

  datatype ElementAction = Click | Fill

  // ---------------------------------------------------------------------------
  // wait

  /** What `wait` does: pause for a number of milliseconds, or only log. */
  datatype WaitOutcome = Waited(millis: nat) | InvalidWaitType(error: string)

  /** `wait(waitType)`: the switch over the wait-type names; any other string only logs. */
  function Wait(waitType: string): (r: WaitOutcome)
    ensures r.Waited? <==> waitType in WaitTypeNames
    ensures r.InvalidWaitType? ==> r.error == "Invalid wait type: " + waitType
  {
    if waitType == "minWait" then Waited(3000)
    else if waitType == "mediumWait" then Waited(5000)
    else if waitType == "maxWait" then Waited(10000)
    else InvalidWaitType("Invalid wait type: " + waitType)
  }

  // ---------------------------------------------------------------------------
  // dropdown

  /** `{ value?, index?, label? }`, with `label` renamed since it is a keyword here. */
  datatype DropdownOptions = DropdownOptions(value: Option<string>, index: Option<int>, labelText: Option<string>)

  /** The one `selectOption` call made, if any. */
  datatype Selection = SelectByValue(value: string) | SelectByIndex(index: int) | SelectByLabel(labelText: string) | NoSelection

  /** A string option that is present and not empty. */
  predicate Truthy(s: Option<string>)
  {
    s.Some? && s.value != ""
  }

  /** The branch `selectDropdown` takes. */
  function SelectDropdown(options: DropdownOptions): (r: Selection)
    ensures r != NoSelection ==> r in Candidates(options)
  {
    if Truthy(options.value) then SelectByValue(options.value.value)
    else if options.index.Some? then SelectByIndex(options.index.value)
    else if Truthy(options.labelText) then SelectByLabel(options.labelText.value)
    else NoSelection
  }

  /** Every selection the options would allow, in priority order: value, index, label. */
  function Candidates(options: DropdownOptions): seq<Selection>
  {
    (if Truthy(options.value) then [SelectByValue(options.value.value)] else []) +
    (if options.index.Some? then [SelectByIndex(options.index.value)] else []) +
    (if Truthy(options.labelText) then [SelectByLabel(options.labelText.value)] else [])
  }

  // ---------------------------------------------------------------------------
  // selectors

  /** `getById`. */
  function IdSelector(locator: string): string
  {
    "#" + locator
  }

  /** `getByClass`: an exact match on the whole class attribute. */
  function ClassAttributeSelector(locator: string): string
  {
    "[class='" + locator + "']"
  }

  /** The CLASS case of `interactWithElement`: one class among possibly several. */
  function ClassSelector(locator: string): string
  {
    "." + locator
  }

  const ClassAttributePrefix := "[class='"
  const ClassAttributeSuffix := "']"

  /** The locator an id selector was made from. */
  function IdOfSelector(selector: string): Option<string>
  {
    if |selector| > 0 && selector[0] == '#' then Some(selector[1..]) else None
  }

  /** The locator a class-attribute selector was made from. */
  function ClassOfSelector(selector: string): Option<string>
  {
    var n := |ClassAttributePrefix|;
    var m := |ClassAttributeSuffix|;
    if |selector| >= n + m && selector[..n] == ClassAttributePrefix && selector[|selector| - m..] == ClassAttributeSuffix
    then Some(selector[n..|selector| - m])
    else None
  }

  // ---------------------------------------------------------------------------
  // interactWithElement

  /** The Playwright locator an element is found by. */
  datatype Target =
    | GetByLabel(text: string)
    | GetByPlaceholder(text: string)
    | GetByText(text: string)
    | GetByTitle(text: string)
    | GetByAltText(text: string)
    | Locator(selector: string)

  /** The action taken on the element, or the error logged instead. */
  datatype Step = ClickOn(target: Target) | FillIn(target: Target, data: string) | FillNotSupported(error: string)

  /** The errors logged up front, and the step that follows regardless. */
  datatype Interaction = Interaction(errors: seq<string>, step: Step)

  const MissingLocator := "Locator must be provided."
  const MissingData := "Data must be provided for the 'fill' action."

  function NotFillable(attribute: ElementAttribute): string
  {
    "The 'fill' action is not supported for '" + AttributeName(attribute) + "' attributes."
  }

  /** The two up-front checks: they log and do not return. */
  function InputErrors(locator: string, action: ElementAction, data: string): seq<string>
  {
    (if locator == "" then [MissingLocator] else []) +
    (if action == Fill && data == "" then [MissingData] else [])
  }

  /** `interactWithElement(attribute, locator, action, data)`: the switch over the attribute. */
  function InteractWithElement(attribute: ElementAttribute, locator: string, action: ElementAction, data: string): (r: Interaction)
    ensures r.step.FillNotSupported? <==> action == Fill && !(attribute.Label? || attribute.Placeholder? || attribute.Id? || attribute.Class?)
    ensures r.step.FillIn? ==> action == Fill && r.step.data == data
  {
    var step :=
      match attribute
      case Label => if action == Click then ClickOn(GetByLabel(locator)) else FillIn(GetByLabel(locator), data)
      case Placeholder => if action == Click then ClickOn(GetByPlaceholder(locator)) else FillIn(GetByPlaceholder(locator), data)
      case Text => if action == Click then ClickOn(GetByText(locator)) else FillNotSupported(NotFillable(Text))
      case Title => if action == Click then ClickOn(GetByTitle(locator)) else FillNotSupported(NotFillable(Title))
      case AltText => if action == Click then ClickOn(GetByAltText(locator)) else FillNotSupported(NotFillable(AltText))
      case Id => var idSelector := "#" + locator;
        if action == Click then ClickOn(Locator(idSelector)) else FillIn(Locator(idSelector), data)
      case Class => var classSelector := "." + locator;
        if action == Click then ClickOn(Locator(classSelector)) else FillIn(Locator(classSelector), data);
    Interaction(InputErrors(locator, action, data), step)
  }

  /** How each attribute finds its element, independent of the action. */
  function TargetOf(attribute: ElementAttribute, locator: string): Target
  {
    match attribute
    case Label => GetByLabel(locator)
    case Placeholder => GetByPlaceholder(locator)
    case Text => GetByText(locator)
    case Title => GetByTitle(locator)
    case AltText => GetByAltText(locator)
    case Id => Locator(IdSelector(locator))
    case Class => Locator(ClassSelector(locator))
  }

  /** The attributes whose element can be filled. */
  predicate Fillable(attribute: ElementAttribute)
  {
    attribute.Label? || attribute.Placeholder? || attribute.Id? || attribute.Class?
  }

  // ---------------------------------------------------------------------------
  // clickinFrame

  /** Where `clickinFrame` clicks. */
  datatype FrameClick = InFrame(frameSelector: string, locator: string, index: int) | OnMainPage(locator: string)

  /** `clickinFrame`, given how many elements the frame matches. */
  function ClickInFrame(frameSelector: string, locator: string, elementCount: nat, index: int): (r: FrameClick)
    ensures r.locator == locator
    ensures r.InFrame? ==> r.frameSelector == frameSelector && r.index == index
  {
    if elementCount > 0 then InFrame(frameSelector, locator, index) else OnMainPage(locator)
  }

  // ---------------------------------------------------------------------------
  // pages and the wrapper

  /** A browser page: the controls checked on it and the number of `check` calls made. */
  class Page {
    var checked: set<string>
    var checkCalls: nat

    constructor ()
      ensures checked == {} && checkCalls == 0
    {
      checked := {};
      checkCalls := 0;
    }
  }

  /** A browser context: the pages open in it, in opening order. */
  class BrowserContext {
    var pages: seq<Page>

    constructor (pages: seq<Page>)
      ensures this.pages == pages
    {
      this.pages := pages;
    }
  }

  /** The static `PlaywrightWrapper.newPage`: one slot shared by every wrapper. */
  class TabSlot {
    var newPage: Page?

    constructor ()
      ensures newPage == null
    {
      newPage := null;
    }
  }

  const NoNewTab := "New tab is not initialized. Did you forget to call childTab()?"
  const NoParentPage := "Parent page is not available"
  const NoChildPage := "Page at the specified index is not available"
  const AlreadyChecked := "The button is already checked"

  class Wrapper {
    /** The current page; `undefined` once a negative index was given to `switchToChildPage`. */
    var page: Page?
    const context: BrowserContext
    const slot: TabSlot

    constructor (page: Page, context: BrowserContext, slot: TabSlot)
      ensures this.page == page && this.context == context && this.slot == slot
    {
      this.page := page;
      this.context := context;
      this.slot := slot;
    }

    /** `getNewPage`: the slot, logging an error when it was never set. */
    method GetNewPage() returns (newPage: Page?, error: Option<string>)
      ensures newPage == slot.newPage
      ensures error == if newPage == null then Some(NoNewTab) else None
    {
      if slot.newPage == null {
        error := Some(NoNewTab);
      } else {
        error := None;
      }
      newPage := slot.newPage;
    }

    /**
     * `childTab`: clicking opens `tab` in the context; the slot takes it
     * and the current page becomes the context's last page. With no current
     * page the click throws before anything happens.
     */
    method ChildTab(tab: Page) returns (thrown: bool)
      modifies this, context, slot
      ensures thrown <==> old(page) == null
      ensures thrown ==> page == null && context.pages == old(context.pages) && slot.newPage == old(slot.newPage)
      ensures !thrown ==> context.pages == old(context.pages) + [tab] && slot.newPage == tab &&
                          page == context.pages[|context.pages| - 1]
    {
      if page == null {
        return true;
      }
      context.pages := context.pages + [tab];
      slot.newPage := tab;
      var pages := context.pages;
      page := pages[|pages| - 1];
      thrown := false;
    }

    /** `switchToParentPage`: the context's first page, if there is one. */
    method SwitchToParentPage() returns (error: Option<string>)
      modifies this
      ensures |context.pages| > 0 ==> page == context.pages[0] && error == None
      ensures |context.pages| == 0 ==> page == old(page) && error == Some(NoParentPage)
    {
      var pages := context.pages;
      if |pages| > 0 {
        page := pages[0];
        error := None;
      } else {
        error := Some(NoParentPage);
      }
    }

    /**
     * `switchToChildPage(index)`: the page at `index` when `pages.length >
     * index`. A negative index passes that test, so the current page becomes
     * `undefined` and the following `bringToFront` throws; so does
     * `waitForLoadState` on a missing current page.
     */
    method SwitchToChildPage(index: int) returns (thrown: bool, error: Option<string>)
      modifies this
      ensures thrown <==> old(page) == null || index < 0
      ensures old(page) == null ==> page == null && error == None
      ensures old(page) != null && index < 0 ==> page == null && error == None
      ensures old(page) != null && 0 <= index < |context.pages| ==> page == context.pages[index] && error == None
      ensures old(page) != null && index >= |context.pages| ==> page == old(page) && error == Some(NoChildPage)
    {
      if page == null {
        return true, None;
      }
      var pages := context.pages;
      if |pages| > index {
        if index < 0 {
          page := null;
          return true, None;
        }
        page := pages[index];
        thrown, error := false, None;
      } else {
        thrown, error := false, Some(NoChildPage);
      }
    }

    /** `radioButton`: check the control only when the page does not report it checked. */
    method RadioButton(locator: string) returns (thrown: bool, log: Option<string>)
      modifies page
      ensures thrown <==> page == null
      ensures page != null ==> page.checked == old(page.checked) + {locator}
      ensures page != null ==> page.checkCalls == old(page.checkCalls) + (if locator in old(page.checked) then 0 else 1)
      ensures page != null ==> log == if locator in old(page.checked) then Some(AlreadyChecked) else None
    {
      if page == null {
        return true, None;
      }
      var current := page;
      if locator !in current.checked {
        current.checked := current.checked + {locator};
        current.checkCalls := current.checkCalls + 1;
        log := None;
      } else {
        log := Some(AlreadyChecked);
      }
      thrown := false;
    }
  }

  /** The slot is class-wide: a tab one wrapper opens is what every other wrapper sharing the slot gets back. */
  method ChildTabIsSharedBySlot(opener: Wrapper, other: Wrapper, tab: Page) returns (seen: Page?)
    requires opener.page != null
    requires opener.slot == other.slot
    modifies opener, opener.context, opener.slot
    ensures seen == tab
  {
    var thrown := opener.ChildTab(tab);
    var error;
    seen, error := other.GetNewPage();
  }

  // ---------------------------------------------------------------------------
  // properties

  /** The three wait types wait 3, 5 and 10 seconds; every other string only logs. */
  lemma {:induction false} WaitTable(waitType: string)
    ensures Wait(waitType).Waited? <==> waitType in WaitTypeNames
    ensures Wait(WaitTypeName(MinWait)) == Waited(3000)
    ensures Wait(WaitTypeName(MediumWait)) == Waited(5000)
    ensures Wait(WaitTypeName(MaxWait)) == Waited(10000)
  {
  }

  /** The names of the wait types are the listed `WaitTypes`, each once, and later names wait longer. */
  lemma {:induction false} WaitTypesListed(w: WaitType, v: WaitType, i: nat, j: nat)
    ensures WaitTypeName(w) in WaitTypeNames
    ensures WaitTypeName(w) == WaitTypeName(v) ==> w == v
    ensures Wait(WaitTypeName(w)).Waited?
    ensures i < j < |WaitTypeNames| ==>
      Wait(WaitTypeNames[i]).Waited? && Wait(WaitTypeNames[j]).Waited? &&
      Wait(WaitTypeNames[i]).millis < Wait(WaitTypeNames[j]).millis
  {
  }

  /** `selectDropdown` uses the first applicable option, value before index before label, and at most one. */
  lemma {:induction false} DropdownPriority(options: DropdownOptions)
    ensures SelectDropdown(options) == if |Candidates(options)| > 0 then Candidates(options)[0] else NoSelection
    ensures SelectDropdown(options) == NoSelection <==> |Candidates(options)| == 0
  {
  }

  /** The selection passes on an option the caller gave; index 0 counts, an empty string does not. */
  lemma {:induction false} DropdownUsesGivenOption(options: DropdownOptions)
    ensures match SelectDropdown(options)
      case SelectByValue(v) => options.value == Some(v) && v != ""
      case SelectByIndex(i) => options.index == Some(i) && !Truthy(options.value)
      case SelectByLabel(l) => options.labelText == Some(l) && !Truthy(options.value) && options.index == None
      case NoSelection => !Truthy(options.value) && options.index == None && !Truthy(options.labelText)
    ensures SelectDropdown(DropdownOptions(Some(""), Some(0), Some("Other"))) == SelectByIndex(0)
  {
  }

  /** Id selectors give their locator back, so distinct locators never share an id selector. */
  lemma {:induction false} IdSelectorRoundTrip(locator: string, selector: string)
    ensures IdOfSelector(IdSelector(locator)) == Some(locator)
    ensures IdOfSelector(selector) == Some(locator) ==> IdSelector(locator) == selector
  {
    assert IdSelector(locator)[1..] == locator;
    if IdOfSelector(selector) == Some(locator) {
      assert selector == [selector[0]] + selector[1..];
    }
  }

  /** Class-attribute selectors give their locator back, so distinct locators never share one. */
  lemma {:induction false} ClassAttributeRoundTrip(locator: string, selector: string)
    ensures ClassOfSelector(ClassAttributeSelector(locator)) == Some(locator)
    ensures ClassOfSelector(selector) == Some(locator) ==> ClassAttributeSelector(locator) == selector
  {
    var s := ClassAttributeSelector(locator);
    var n, m := |ClassAttributePrefix|, |ClassAttributeSuffix|;
    assert s[..n] == ClassAttributePrefix;
    assert s[|s| - m..] == ClassAttributeSuffix;
    assert s[n..|s| - m] == locator;
    if ClassOfSelector(selector) == Some(locator) {
      assert selector == selector[..n] + selector[n..|selector| - m] + selector[|selector| - m..];
    }
  }

  /** The CLASS case of `interactWithElement` never builds the selector `getByClass` builds, nor an id selector. */
  lemma {:induction false} ClassSelectorsDiffer(locator: string, other: string)
    ensures ClassSelector(locator) != ClassAttributeSelector(other)
    ensures ClassSelector(locator) != IdSelector(other)
  {
    assert ClassSelector(locator)[0] == '.';
    assert ClassAttributeSelector(other)[0] == '[';
    assert IdSelector(other)[0] == '#';
  }

  /**
   * `interactWithElement` clicks the attribute's target for `click`; for
   * `fill` it fills that target with the data exactly when the attribute is
   * LABEL, PLACEHOLDER, ID or CLASS, and otherwise only logs. The missing
   * locator and missing data checks log and never change the step.
   */
  lemma {:induction false} InteractionPlan(attribute: ElementAttribute, locator: string, action: ElementAction, data: string)
    ensures InteractWithElement(attribute, locator, action, data).step ==
      if action == Click then ClickOn(TargetOf(attribute, locator))
      else if Fillable(attribute) then FillIn(TargetOf(attribute, locator), data)
      else FillNotSupported(NotFillable(attribute))
    ensures MissingLocator in InteractWithElement(attribute, locator, action, data).errors <==> locator == ""
    ensures MissingData in InteractWithElement(attribute, locator, action, data).errors <==> action == Fill && data == ""
  {
    assert MissingLocator != MissingData;
  }

  /** ID and CLASS resolve to `#locator` and `.locator`, whatever the action. */
  lemma {:induction false} SelectorResolution(locator: string, action: ElementAction, data: string)
    ensures InteractWithElement(Id, locator, action, data).step.target == Locator(IdSelector(locator))
    ensures InteractWithElement(Class, locator, action, data).step.target == Locator(ClassSelector(locator))
  {
  }

  /** The frame is used exactly when it matches something; the main-page fallback ignores the frame and the index. */
  lemma {:induction false} FrameFallback(frameSelector: string, locator: string, elementCount: nat, index: int, otherFrame: string, otherIndex: int)
    ensures ClickInFrame(frameSelector, locator, elementCount, index).InFrame? <==> elementCount > 0
    ensures elementCount > 0 ==> ClickInFrame(frameSelector, locator, elementCount, index).index == index
    ensures ClickInFrame(frameSelector, locator, 0, index) == ClickInFrame(otherFrame, locator, 0, otherIndex)
  {
  }

  /** After `radioButton` the control is checked, and a second call makes no further `check`. */
  method RadioButtonTwice(w: Wrapper, locator: string)
    requires w.page != null
    modifies w.page
    ensures w.page.checked == old(w.page.checked) + {locator}
    ensures w.page.checkCalls == old(w.page.checkCalls) + (if locator in old(w.page.checked) then 0 else 1)
  {
    var thrown, log := w.RadioButton(locator);
    thrown, log := w.RadioButton(locator);
    assert log == Some(AlreadyChecked);
  }
}
