/**
  The command emitter table: one emission rule per recorded command kind,
  and the dispatch that looks a command up in it. The adapters that translate
  locators and option selectors, and the runtime helpers for text escaping,
  name sanitising and millisecond-to-second rendering, are parameters.
 */
module Emitters {
  import opened Wrappers
  import opened Text
  import opened Fragments
  import opened Values
  import opened ControlFlow
  import opened Navigation

  /** What the emitters consume from outside the file. */
  datatype Env = Env(
    locate: string -> string,        // the locator adapter: `By.ID, "x"` and the like
    select: string -> string,        // the option-selector adapter
    emitText: string -> string,      // the runtime's text escaping for expected texts
    sanitizeName: string -> string,  // the runtime's test-name sanitiser
    seconds: string -> string,       // how `${ms / 1000}` prints a millisecond count
    baseUrl: string)                 // the configured base URL

  /** A positional argument as the runtime hands it over. */
  datatype Argument = Text(text: string) | Code(script: Script) | Keys(tokens: seq<string>)

  /** A recorded command: its kind and its target and value arguments. */
  datatype Command = Command(command: string, target: Argument, value: Argument)

  datatype EmitError = UnsupportedCommand(command: string) | Rejected(message: string)

  /** An argument in a text position; a list prints comma-joined, as in a template string. */
  function AsText(a: Argument): string
  {
    match a
    case Text(s) => s
    case Code(sc) => sc.body
    case Keys(ks) => Join(ks, ",")
  }

  /** An argument in a script position; plain text is a script with no arguments. */
  function AsScript(a: Argument): Script
  {
    match a
    case Code(sc) => sc
    case _ => Script(AsText(a), [])
  }

  function AsKeys(a: Argument): KeysInput
  {
    match a
    case Keys(ks) => Many(ks)
    case _ => One(AsText(a))
  }

  /** `self.driver.find_element(<locator>)`. */
  function FindElement(env: Env, locator: string): string
  {
    "self.driver.find_element(" + env.locate(locator) + ")"
  }

  // ---------------------------------------------------------------------------
  // Element actions

  function EmitClick(env: Env, target: string): string
  {
    FindElement(env, target) + ".click()"
  }

  function EmitDoubleClick(env: Env, target: string): Fragment
  {
    Statements([ "element = " + FindElement(env, target),
                 "actions = ActionChains(self.driver)",
                 "actions.double_click(element).perform()" ])
  }

  function EmitDragAndDrop(env: Env, dragged: string, dropped: string): Fragment
  {
    Statements([ "dragged = " + FindElement(env, dragged),
                 "dropped = " + FindElement(env, dropped),
                 "actions = ActionChains(self.driver)",
                 "actions.drag_and_drop(dragged, dropped).perform()" ])
  }

  function EmitCheck(env: Env, locator: string): Fragment
  {
    Statements([ "element = " + FindElement(env, locator), "if element.is_selected() != True: element.click()" ])
  }

  /** `uncheck` tests the bound method `element.is_selected` itself, which is always truthy. */
  function EmitUncheck(env: Env, locator: string): Fragment
  {
    Statements([ "element = " + FindElement(env, locator), "if element.is_selected: element.click()" ])
  }

  function EmitMouseDown(env: Env, locator: string): Fragment
  {
    Statements([ "element = " + FindElement(env, locator),
                 "actions = ActionChains(self.driver)",
                 "actions.move_to_element(element).click_and_hold().perform()" ])
  }

  function EmitMouseMove(env: Env, locator: string): Fragment
  {
    Statements([ "element = " + FindElement(env, locator),
                 "actions = ActionChains(self.driver)",
                 "actions.move_to_element(element).perform()" ])
  }

  function EmitMouseOut(): Fragment
  {
    Statements([ "element = self.driver.find_element(By.CSS_SELECTOR, \"body\")",
                 "actions = ActionChains(self.driver)",
                 "actions.move_to_element(element).perform()" ])
  }

  function EmitMouseUp(env: Env, locator: string): Fragment
  {
    Statements([ "element = " + FindElement(env, locator),
                 "actions = ActionChains(self.driver)",
                 "actions.move_to_element(element).release().perform()" ])
  }

  /** `select`: find the dropdown, then click the option the selector adapter resolves. */
  function EmitSelect(env: Env, selectElement: string, option: string): Fragment
  {
    Statements([ "dropdown = " + FindElement(env, selectElement),
                 "dropdown.find_element(" + env.select(option) + ").click()" ])
  }

  function EmitEditContent(env: Env, locator: string, content: string): Fragment
  {
    Statements([ "element = " + FindElement(env, locator),
                 "self.driver.execute_script(\"if(arguments[0].contentEditable === 'true') {arguments[0].innerText = '"
                   + content + "'}\", element)" ])
  }

  /** `sendKeys` and `type` share one rule. */
  function EmitSendKeys(env: Env, target: string, value: KeysInput): string
  {
    FindElement(env, target) + ".send_keys(" + GenerateSendKeysInput(value) + ")"
  }

  /** `setWindowSize`: `WxH` split at `x`; a missing height prints as `undefined`. */
  function EmitSetWindowSize(size: string): string
  {
    var parts := Split(size, 'x');
    "self.driver.set_window_size(" + parts[0] + ", " + (if |parts| > 1 then parts[1] else "undefined") + ")"
  }

  const SubmitUnsupported: string :=
    "raise Exception(\"'submit' is not a supported command in Selenium WebDriver. Please re-record the step in the IDE.\")"

  /** `submit` compiles to a statement that fails when the test runs. */
  function EmitSubmit(): string
  {
    SubmitUnsupported
  }

  // ---------------------------------------------------------------------------
  // Alerts, windows, navigation, scripts

  function EmitAssertAlert(alertText: string): string
  {
    "assert self.driver.switch_to.alert.text == " + Quote(alertText)
  }

  function EmitAnswerOnNextPrompt(textToSend: string): Fragment
  {
    Statements([ "alert = self.driver.switch_to.alert",
                 "alert.send_keys(" + Quote(textToSend) + ")",
                 "alert.accept()" ])
  }

  const ChooseCancel: string := "self.driver.switch_to.alert.dismiss()"
  const ChooseOk: string := "self.driver.switch_to.alert.accept()"
  const CloseWindow: string := "self.driver.close()"
  const SetSpeedNote: string := "print(\"`set speed` is a no-op in code export, use `pause` instead\")"

  function EmitPause(env: Env, time: string): Fragment
  {
    Statements(["time.sleep(" + env.seconds(time) + ")"])
  }

  function EmitRun(env: Env, testName: string): string
  {
    "self." + env.sanitizeName(testName) + "()"
  }

  /** `runScript`: the argument text is appended inside the quoted script, as the source writes it. */
  function EmitRunScript(script: Script): string
  {
    "self.driver.execute_script(" + Quote(script.body + GenerateScriptArguments(script)) + ")"
  }

  /** `s.replace(/"/g, "'")`. */
  function SingleQuoted(s: string): (r: string)
    ensures |r| == |s| && '"' !in r
    ensures forall i :: 0 <= i < |s| ==> r[i] == (if s[i] == '"' then '\'' else s[i])
  {
    seq(|s|, i requires 0 <= i < |s| => if s[i] == '"' then '\'' else s[i])
  }

  // ---------------------------------------------------------------------------
  // store*, executeScript, executeAsyncScript: `variableSetter(<name>, <expression>)`

  /** The variable a storing emitter names: its target for `storeWindowHandle`, otherwise its value. */
  function StoredName(id: EmitterId, target: Argument, value: Argument): string
  {
    if id.StoreWindowHandle? then AsText(target) else AsText(value)
  }

  /**
    The expression each storing emitter hands to the setter. `executeScript`
    turns double quotes in the body into single quotes; `executeAsyncScript`
    chains the body to the driver's callback, with the argument text inside
    the quoted script.
   */
  function StoredExpression(env: Env, id: EmitterId, target: Argument): string
    requires id.IsStoring()
  {
    var t := AsText(target);
    var sc := AsScript(target);
    match id
    case Store => Quote(t)
    case StoreJson => "json.loads('" + t + "')"
    case StoreText => FindElement(env, t) + ".text"
    case StoreTitle => "self.driver.title"
    case StoreValue => FindElement(env, t) + ".get_attribute(\"value\")"
    case StoreWindowHandle => "self.driver.current_window_handle"
    case StoreXpathCount => "len(self.driver.find_elements(" + env.locate(t) + "))"
    case ExecuteScript => "self.driver.execute_script(" + Quote(SingleQuoted(sc.body)) + GenerateScriptArguments(sc) + ")"
    case ExecuteAsyncScript =>
      "self.driver.execute_async_script(\"var callback = arguments[arguments.length - 1];" + sc.body
        + ".then(callback).catch(callback);" + GenerateScriptArguments(sc) + "\")"
  }

  // ---------------------------------------------------------------------------
  // Verifications and assertions (both kinds share each rule)

  function EmitVerifyChecked(env: Env, locator: string): string
  {
    "assert " + FindElement(env, locator) + ".is_selected() is True"
  }

  function EmitVerifyNotChecked(env: Env, locator: string): string
  {
    "assert " + FindElement(env, locator) + ".is_selected() is False"
  }

  function EmitVerifyEditable(env: Env, locator: string): Fragment
  {
    Statements([ "element = " + FindElement(env, locator), "assert element.is_enabled() is True" ])
  }

  function EmitVerifyNotEditable(env: Env, locator: string): Fragment
  {
    Statements([ "element = " + FindElement(env, locator), "assert element.is_enabled() is False" ])
  }

  function EmitVerifyElementPresent(env: Env, locator: string): Fragment
  {
    Statements([ "elements = self.driver.find_elements(" + env.locate(locator) + ")", "assert len(elements) > 0" ])
  }

  function EmitVerifyElementNotPresent(env: Env, locator: string): Fragment
  {
    Statements([ "elements = self.driver.find_elements(" + env.locate(locator) + ")", "assert len(elements) == 0" ])
  }

  function EmitVerifyNotSelectedValue(env: Env, locator: string, expectedValue: string): Fragment
  {
    Statements([ "value = " + FindElement(env, locator) + ".get_attribute(\"value\")",
                 "assert value != " + Quote(env.emitText(expectedValue)) ])
  }

  function EmitVerifyNotText(env: Env, locator: string, text: string): Fragment
  {
    Statements([ "text = " + FindElement(env, locator) + ".text", "assert text != " + Quote(env.emitText(text)) ])
  }

  function EmitVerifySelectedLabel(env: Env, locator: string, labelValue: string): Fragment
  {
    Statements([ "element = " + FindElement(env, locator),
                 "locator = \"option[@value='{}']\".format(element.get_attribute(\"value\"))",
                 "selected_text = element.find_element(By.XPATH, locator).text",
                 "assert selected_text == " + Quote(labelValue) ])
  }

  function EmitVerifyText(env: Env, locator: string, text: string): Fragment
  {
    Statements(["assert " + FindElement(env, locator) + ".text == " + Quote(env.emitText(text))])
  }

  function EmitVerifyValue(env: Env, locator: string, value: string): Fragment
  {
    Statements([ "value = " + FindElement(env, locator) + ".get_attribute(\"value\")", "assert value == " + Quote(value) ])
  }

  function EmitVerifyTitle(title: string): string
  {
    "assert self.driver.title == " + Quote(title)
  }

  // ---------------------------------------------------------------------------
  // Waits

  /** `WebDriverWait(self.driver, <s>).<until>(expected_conditions.<condition>((<locator>)<extra>))`. */
  function WaitStatement(seconds: string, until: string, condition: string, locator: string, extra: string): string
  {
    "WebDriverWait(self.driver, " + seconds + ")." + until + "(expected_conditions." + condition
      + "((" + locator + ")" + extra + "))"
  }

  function EmitWait(env: Env, until: string, condition: string, locator: string, timeout: string): Fragment
  {
    Statements([WaitStatement(env.seconds(timeout), until, condition, env.locate(locator), "")])
  }

  /** `waitForText` waits a fixed 30000 ms, printed as 30 seconds. */
  function EmitWaitForText(env: Env, locator: string, text: string): Fragment
  {
    Statements([WaitStatement("30", "until", "text_to_be_present_in_element", env.locate(locator), ", " + Quote(text))])
  }

  // ---------------------------------------------------------------------------
  // The table

  /** The emitters of the file, one per function. */
  datatype EmitterId =
    | SelectOp | Skip | AssertOp | AssertAlert | VerifyChecked | VerifyEditable | VerifyElementPresent
    | VerifyElementNotPresent | VerifyNotChecked | VerifyNotEditable | VerifyNotSelectedValue | VerifyNotText
    | VerifySelectedLabel | VerifyValue | VerifyText | VerifyTitle | Check | Click | Close | DoOp
    | DoubleClick | DragAndDrop | Echo | EditContent | ElseOp | ElseIfOp | EndOp | ExecuteScript
    | ExecuteAsyncScript | ForEachOp | IfOp | MouseDown | MouseMove | MouseOut | MouseUp | Open | Pause
    | RepeatIfOp | RunOp | RunScript | SelectFrame | SelectWindow | SendKeys | SetSpeed | SetWindowSize
    | Store | StoreAttribute | StoreJson | StoreText | StoreTitle | StoreValue | StoreWindowHandle
    | StoreXpathCount | Submit | TimesOp | Uncheck | WaitForElementEditable | WaitForElementPresent
    | WaitForElementVisible | WaitForElementNotEditable | WaitForElementNotPresent | WaitForElementNotVisible
    | AnswerOnNextPrompt | WaitForText | ChooseCancelOnNextConfirmation | ChooseOkOnNextConfirmation | WhileOp
  {
    /** The control-flow emitters, which open, continue or close a block. */
    predicate IsControlFlow()
    {
      DoOp? || ElseOp? || ElseIfOp? || EndOp? || ForEachOp? || IfOp? || RepeatIfOp? || TimesOp? || WhileOp?
    }

    /** The control-flow emitters that adjust the baseline: all of them but `forEach`. */
    predicate MovesBaseline()
    {
      IsControlFlow() && !ForEachOp?
    }

    /** The emitters of assertions and verifications about values, texts and titles. */
    predicate IsVerification()
    {
      AssertOp? || AssertAlert? || VerifyNotSelectedValue? || VerifyNotText? || VerifySelectedLabel? ||
        VerifyValue? || VerifyText? || VerifyTitle?
    }

    /** The emitters of verifications about an element's state or presence. */
    predicate IsStateVerification()
    {
      VerifyChecked? || VerifyNotChecked? || VerifyEditable? || VerifyNotEditable? || VerifyElementPresent? ||
        VerifyElementNotPresent?
    }

    /** The emitters of explicit waits. */
    predicate IsWait()
    {
      WaitForElementEditable? || WaitForElementPresent? || WaitForElementVisible? ||
        WaitForElementNotEditable? || WaitForElementNotPresent? || WaitForElementNotVisible? || WaitForText?
    }

    /** The emitters that click, select, check or drag an element. */
    predicate IsElementAction()
    {
      SelectOp? || Check? || Click? || DoubleClick? || DragAndDrop? || Uncheck?
    }

    /** The emitters that enter content into an element or its form. */
    predicate IsInput()
    {
      EditContent? || SendKeys? || Submit?
    }

    /** The mouse emitters. */
    predicate IsMouse()
    {
      MouseDown? || MouseMove? || MouseOut? || MouseUp?
    }

    /** The emitters that act on the browser: windows, alerts, frames and navigation, except `selectWindow`. */
    predicate IsBrowserAction()
    {
      Close? || SetWindowSize? || AnswerOnNextPrompt? || ChooseCancelOnNextConfirmation? ||
        ChooseOkOnNextConfirmation? || Open? || SelectFrame?
    }

    /** The emitters that write to the variable store with a single statement. */
    predicate IsStoring()
    {
      Store? || StoreJson? || StoreText? || StoreTitle? || StoreValue? || StoreWindowHandle? ||
        StoreXpathCount? || ExecuteScript? || ExecuteAsyncScript?
    }
  }

  /**
    Command kind to emitter, as the exported `emitters` object lists them;
    `None` for a kind it lacks. The keys are matched on their length first
    and then on the literal: one match over all 98 literals makes every
    lemma about the table pay for 98 string comparisons, while the length
    narrows each lookup to a handful.
   */
  function EmitterFor(command: string): Option<EmitterId>
  {
    match |command|
    case 2 =>
      (match command
       case "do" => Some(DoOp)
       case "if" => Some(IfOp)
       case _ => None)
    case 3 =>
      (match command
       case "end" => Some(EndOp)
       case "run" => Some(RunOp)
       case _ => None)
    case 4 =>
      (match command
       case "echo" => Some(Echo)
       case "else" => Some(ElseOp)
       case "open" => Some(Open)
       case "type" => Some(SendKeys)
       case _ => None)
    case 5 =>
      (match command
       case "check" => Some(Check)
       case "click" => Some(Click)
       case "close" => Some(Close)
       case "pause" => Some(Pause)
       case "store" => Some(Store)
       case "times" => Some(TimesOp)
       case "while" => Some(WhileOp)
       case _ => None)
    case 6 =>
      (match command
       case "assert" => Some(AssertOp)
       case "elseIf" => Some(ElseIfOp)
       case "select" => Some(SelectOp)
       case "submit" => Some(Submit)
       case "verify" => Some(AssertOp)
       case _ => None)
    case 7 =>
      (match command
       case "clickAt" => Some(Click)
       case "forEach" => Some(ForEachOp)
       case "mouseUp" => Some(MouseUp)
       case "uncheck" => Some(Uncheck)
       case _ => None)
    case 8 =>
      (match command
       case "debugger" => Some(Skip)
       case "mouseOut" => Some(MouseOut)
       case "repeatIf" => Some(RepeatIfOp)
       case "sendKeys" => Some(SendKeys)
       case "setSpeed" => Some(SetSpeed)
       case _ => None)
    case 9 =>
      (match command
       case "mouseDown" => Some(MouseDown)
       case "mouseMove" => Some(MouseMove)
       case "mouseOver" => Some(MouseMove)
       case "mouseUpAt" => Some(MouseUp)
       case "runScript" => Some(RunScript)
       case "storeJson" => Some(StoreJson)
       case "storeText" => Some(StoreText)
       case _ => None)
    case 10 =>
      (match command
       case "assertText" => Some(VerifyText)
       case "storeTitle" => Some(StoreTitle)
       case "storeValue" => Some(StoreValue)
       case "verifyText" => Some(VerifyText)
       case _ => None)
    case 11 =>
      (match command
       case "assertAlert" => Some(AssertAlert)
       case "assertValue" => Some(VerifyValue)
       case "assertTitle" => Some(VerifyTitle)
       case "doubleClick" => Some(DoubleClick)
       case "editContent" => Some(EditContent)
       case "mouseDownAt" => Some(MouseDown)
       case "mouseMoveAt" => Some(MouseMove)
       case "selectFrame" => Some(SelectFrame)
       case "verifyTitle" => Some(VerifyTitle)
       case "verifyValue" => Some(VerifyValue)
       case "waitForText" => Some(WaitForText)
       case _ => None)
    case 12 =>
      (match command
       case "addSelection" => Some(SelectOp)
       case "assertPrompt" => Some(AssertAlert)
       case "selectWindow" => Some(SelectWindow)
       case _ => None)
    case 13 =>
      (match command
       case "assertChecked" => Some(VerifyChecked)
       case "assertNotText" => Some(VerifyNotText)
       case "doubleClickAt" => Some(DoubleClick)
       case "executeScript" => Some(ExecuteScript)
       case "setWindowSize" => Some(SetWindowSize)
       case "verifyChecked" => Some(VerifyChecked)
       case "verifyNotText" => Some(VerifyNotText)
       case _ => None)
    case 14 =>
      (match command
       case "assertEditable" => Some(VerifyEditable)
       case "storeAttribute" => Some(StoreAttribute)
       case "verifyEditable" => Some(VerifyEditable)
       case _ => None)
    case 15 =>
      (match command
       case "removeSelection" => Some(SelectOp)
       case "storeXpathCount" => Some(StoreXpathCount)
       case _ => None)
    case 16 =>
      (match command
       case "assertNotChecked" => Some(VerifyNotChecked)
       case "verifyNotChecked" => Some(VerifyNotChecked)
       case _ => None)
    case 17 =>
      (match command
       case "assertNotEditable" => Some(VerifyNotEditable)
       case "storeWindowHandle" => Some(StoreWindowHandle)
       case "verifyNotEditable" => Some(VerifyNotEditable)
       case _ => None)
    case 18 =>
      (match command
       case "answerOnNextPrompt" => Some(Skip)
       case "assertConfirmation" => Some(AssertAlert)
       case "executeAsyncScript" => Some(ExecuteAsyncScript)
       case _ => None)
    case 19 =>
      (match command
       case "assertSelectedLabel" => Some(VerifySelectedLabel)
       case "assertSelectedValue" => Some(VerifyValue)
       case "dragAndDropToObject" => Some(DragAndDrop)
       case "verifySelectedLabel" => Some(VerifySelectedLabel)
       case "verifySelectedValue" => Some(VerifyValue)
       case _ => None)
    case 20 =>
      (match command
       case "assertElementPresent" => Some(VerifyElementPresent)
       case "verifyElementPresent" => Some(VerifyElementPresent)
       case _ => None)
    case 21 =>
      (match command
       case "waitForElementPresent" => Some(WaitForElementPresent)
       case "waitForElementVisible" => Some(WaitForElementVisible)
       case _ => None)
    case 22 =>
      (match command
       case "assertNotSelectedValue" => Some(VerifyNotSelectedValue)
       case "verifyNotSelectedValue" => Some(VerifyNotSelectedValue)
       case "waitForElementEditable" => Some(WaitForElementEditable)
       case _ => None)
    case 23 =>
      (match command
       case "assertElementNotPresent" => Some(VerifyElementNotPresent)
       case "verifyElementNotPresent" => Some(VerifyElementNotPresent)
       case _ => None)
    case 24 =>
      (match command
       case "chooseCancelOnNextPrompt" => Some(Skip)
       case "waitForElementNotPresent" => Some(WaitForElementNotPresent)
       case "waitForElementNotVisible" => Some(WaitForElementNotVisible)
       case _ => None)
    case 25 =>
      (match command
       case "waitForElementNotEditable" => Some(WaitForElementNotEditable)
       case _ => None)
    case 26 =>
      (match command
       case "chooseOkOnNextConfirmation" => Some(Skip)
       case _ => None)
    case 30 =>
      (match command
       case "chooseCancelOnNextConfirmation" => Some(Skip)
       case "webdriverAnswerOnVisiblePrompt" => Some(AnswerOnNextPrompt)
       case _ => None)
    case 36 =>
      (match command
       case "webdriverChooseCancelOnVisiblePrompt" => Some(ChooseCancelOnNextConfirmation)
       case _ => None)
    case 38 =>
      (match command
       case "webdriverChooseOkOnVisibleConfirmation" => Some(ChooseOkOnNextConfirmation)
       case _ => None)
    case 42 =>
      (match command
       case "webdriverChooseCancelOnVisibleConfirmation" => Some(ChooseCancelOnNextConfirmation)
       case _ => None)
    case _ => None
  }

  /** The control-flow emitters: each one but `forEach` moves the baseline. */
  function ApplyControlFlow(id: EmitterId, target: Argument, value: Argument): (f: Fragment)
    requires id.IsControlFlow()
    ensures f.Neutral() <==> id.ForEachOp?
  {
    match id
    case DoOp => EmitDo()
    case ElseOp => EmitElse()
    case ElseIfOp => EmitElseIf(AsScript(target))
    case EndOp => EmitEnd()
    case ForEachOp => EmitForEach(AsText(target), AsText(value))
    case IfOp => EmitIf(AsScript(target))
    case RepeatIfOp => EmitRepeatIf(AsScript(target))
    case TimesOp => EmitTimes(AsText(target))
    case WhileOp => EmitWhile(AsScript(target))
  }

  /** The emitters of verifications about an element's state or presence. */
  function ApplyStateVerification(env: Env, id: EmitterId, t: string): (f: Fragment)
    requires id.IsStateVerification()
    ensures f.Neutral()
  {
    match id
    case VerifyChecked => Line(EmitVerifyChecked(env, t))
    case VerifyEditable => EmitVerifyEditable(env, t)
    case VerifyElementPresent => EmitVerifyElementPresent(env, t)
    case VerifyElementNotPresent => EmitVerifyElementNotPresent(env, t)
    case VerifyNotChecked => Line(EmitVerifyNotChecked(env, t))
    case VerifyNotEditable => EmitVerifyNotEditable(env, t)
  }

  /** The emitters of assertions and verifications about values, texts and titles. */
  function ApplyVerification(env: Env, id: EmitterId, t: string, v: string): (f: Fragment)
    requires id.IsVerification()
    ensures f.Neutral()
  {
    match id
    case AssertOp => Line(EmitAssert(t, v))
    case AssertAlert => Line(EmitAssertAlert(t))
    case VerifyNotSelectedValue => EmitVerifyNotSelectedValue(env, t, v)
    case VerifyNotText => EmitVerifyNotText(env, t, v)
    case VerifySelectedLabel => EmitVerifySelectedLabel(env, t, v)
    case VerifyValue => EmitVerifyValue(env, t, v)
    case VerifyText => EmitVerifyText(env, t, v)
    case VerifyTitle => Line(EmitVerifyTitle(t))
  }

  /** The wait emitters: the value is the timeout in milliseconds, except for `waitForText`. */
  function ApplyWait(env: Env, id: EmitterId, t: string, v: string): (f: Fragment)
    requires id.IsWait()
    ensures f.Neutral()
  {
    match id
    case WaitForElementEditable => EmitWait(env, "until", "element_to_be_clickable", t, v)
    case WaitForElementPresent => EmitWait(env, "until", "presence_of_element_located", t, v)
    case WaitForElementVisible => EmitWait(env, "until", "visibility_of_element_located", t, v)
    case WaitForElementNotEditable => EmitWait(env, "until_not", "element_to_be_clickable", t, v)
    case WaitForElementNotPresent => EmitWait(env, "until", "invisibility_of_element_located", t, v)
    case WaitForElementNotVisible => EmitWait(env, "until", "invisibility_of_element_located", t, v)
    case WaitForText => EmitWaitForText(env, t, v)
  }

  /** The emitters that click, select, check or drag an element. */
  function ApplyElementAction(env: Env, id: EmitterId, t: string, v: string): (f: Fragment)
    requires id.IsElementAction()
    ensures f.Neutral()
  {
    match id
    case SelectOp => EmitSelect(env, t, v)
    case Check => EmitCheck(env, t)
    case Click => Line(EmitClick(env, t))
    case DoubleClick => EmitDoubleClick(env, t)
    case DragAndDrop => EmitDragAndDrop(env, t, v)
    case Uncheck => EmitUncheck(env, t)
  }

  /** The emitters that enter content into an element or its form. */
  function ApplyInput(env: Env, id: EmitterId, target: Argument, value: Argument): (f: Fragment)
    requires id.IsInput()
    ensures f.Neutral()
  {
    var t := AsText(target);
    match id
    case EditContent => EmitEditContent(env, t, AsText(value))
    case SendKeys => Line(EmitSendKeys(env, t, AsKeys(value)))
    case Submit => Line(EmitSubmit())
  }

  /** The mouse emitters. */
  function ApplyMouse(env: Env, id: EmitterId, t: string): (f: Fragment)
    requires id.IsMouse()
    ensures f.Neutral()
  {
    match id
    case MouseDown => EmitMouseDown(env, t)
    case MouseMove => EmitMouseMove(env, t)
    case MouseOut => EmitMouseOut()
    case MouseUp => EmitMouseUp(env, t)
  }

  /** The emitters that act on the browser, except `selectWindow`. */
  function ApplyBrowserAction(env: Env, id: EmitterId, t: string): (f: Fragment)
    requires id.IsBrowserAction()
    ensures f.Neutral()
  {
    match id
    case Close => Line(CloseWindow)
    case SetWindowSize => Line(EmitSetWindowSize(t))
    case AnswerOnNextPrompt => EmitAnswerOnNextPrompt(t)
    case ChooseCancelOnNextConfirmation => Line(ChooseCancel)
    case ChooseOkOnNextConfirmation => Line(ChooseOk)
    case Open => Line(EmitOpen(env.baseUrl, t))
    case SelectFrame => EmitSelectFrame(env.locate, t)
  }

  /** The storing emitters: one line that stores under the variable name, or an empty one. */
  function ApplyStoring(env: Env, id: EmitterId, target: Argument, value: Argument): (f: Fragment)
    requires id.IsStoring()
    ensures f.Line?
  {
    Line(VariableSetter(StoredName(id, target, value), StoredExpression(env, id, target)))
  }

  /** The remaining emitters. */
  function ApplyOther(env: Env, id: EmitterId, target: Argument, value: Argument): (f: Fragment)
    requires id.Skip? || id.Echo? || id.Pause? || id.RunOp? || id.RunScript? || id.SetSpeed? || id.StoreAttribute?
    ensures f.Neutral()
  {
    var t := AsText(target);
    match id
    case Skip => Line("")
    case Echo => Line(EmitEcho(t))
    case Pause => EmitPause(env, t)
    case RunOp => Line(EmitRun(env, t))
    case RunScript => Line(EmitRunScript(AsScript(target)))
    case SetSpeed => Line(SetSpeedNote)
    case StoreAttribute => EmitStoreAttribute(env.locate, t, AsText(value))
  }

  /**
    Runs one emitter on a command's target and value. Only `selectWindow` can
    refuse, and a result moves the baseline exactly when its emitter is a
    control-flow one other than `forEach`.
   */
  function Apply(env: Env, id: EmitterId, target: Argument, value: Argument): (r: Result<Fragment, EmitError>)
    ensures r.Failure? ==> id == SelectWindow && r.error == Rejected(SelectWindowError)
    ensures r.Success? ==> (r.value.Neutral() <==> !id.MovesBaseline())
  {
    if id.IsControlFlow() then Success(ApplyControlFlow(id, target, value))
    else if id.IsStateVerification() then Success(ApplyStateVerification(env, id, AsText(target)))
    else if id.IsVerification() then Success(ApplyVerification(env, id, AsText(target), AsText(value)))
    else if id.IsWait() then Success(ApplyWait(env, id, AsText(target), AsText(value)))
    else if id.IsElementAction() then Success(ApplyElementAction(env, id, AsText(target), AsText(value)))
    else if id.IsInput() then Success(ApplyInput(env, id, target, value))
    else if id.IsMouse() then Success(ApplyMouse(env, id, AsText(target)))
    else if id.IsBrowserAction() then Success(ApplyBrowserAction(env, id, AsText(target)))
    else if id.IsStoring() then Success(ApplyStoring(env, id, target, value))
    else if id.SelectWindow? then
      match EmitSelectWindow(AsText(target))
      case Success(f) => Success(f)
      case Failure(message) => Failure(Rejected(message))
    else Success(ApplyOther(env, id, target, value))
  }

  /**
    `emit(command)`: look the kind up and run its emitter. A kind missing from
    the table is the only cause of an unsupported-command error, and a window
    address `selectWindow` cannot emit is the only other failure.
   */
  function Emit(env: Env, c: Command): (r: Result<Fragment, EmitError>)
    ensures r.Failure? && r.error.UnsupportedCommand? <==> EmitterFor(c.command).None?
    ensures r.Failure? && EmitterFor(c.command).Some? ==>
      EmitterFor(c.command).value == SelectWindow && r.error == Rejected(SelectWindowError)
  {
    match EmitterFor(c.command)
    case Some(id) => Apply(env, id, c.target, c.value)
    case None => Failure(UnsupportedCommand(c.command))
  }

  // ---------------------------------------------------------------------------
  // What the table promises

  /**
    Only the table's own keys are looked up: the names of inherited object
    members, such as `constructor` and `toString`, are unsupported kinds.
   */
  lemma InheritedKeysUnsupported(env: Env, target: Argument, value: Argument)
    ensures Emit(env, Command("constructor", target, value)) == Failure(UnsupportedCommand("constructor"))
    ensures Emit(env, Command("toString", target, value)) == Failure(UnsupportedCommand("toString"))
  {
  }

  /** The verification kinds and the assertion kinds they mirror. */
  const VerifyAssertPairs: seq<(string, string)> := [
    ("verify", "assert"), ("verifyChecked", "assertChecked"), ("verifyEditable", "assertEditable"),
    ("verifyElementPresent", "assertElementPresent"), ("verifyElementNotPresent", "assertElementNotPresent"),
    ("verifyNotChecked", "assertNotChecked"), ("verifyNotEditable", "assertNotEditable"),
    ("verifyNotSelectedValue", "assertNotSelectedValue"), ("verifyNotText", "assertNotText"),
    ("verifySelectedLabel", "assertSelectedLabel"), ("verifySelectedValue", "assertSelectedValue"),
    ("verifyText", "assertText"), ("verifyTitle", "assertTitle"), ("verifyValue", "assertValue")
  ]

  /** A verification is routed to the emitter of the assertion of the same kind: in pytest both are `assert`s. */
  lemma VerifyMirrorsAssert(i: nat)
    requires i < |VerifyAssertPairs|
    ensures EmitterFor(VerifyAssertPairs[i].0).Some?
    ensures EmitterFor(VerifyAssertPairs[i].0) == EmitterFor(VerifyAssertPairs[i].1)
  {
  }

  /** Further kinds that share one emitter: the `...At` forms, the option and alert aliases, `type`. */
  const Aliases: seq<(string, string)> := [
    ("assertSelectedValue", "assertValue"), ("assertConfirmation", "assertAlert"), ("assertPrompt", "assertAlert"),
    ("clickAt", "click"), ("doubleClickAt", "doubleClick"), ("mouseDownAt", "mouseDown"),
    ("mouseMoveAt", "mouseMove"), ("mouseOver", "mouseMove"), ("mouseUpAt", "mouseUp"),
    ("addSelection", "select"), ("removeSelection", "select"), ("type", "sendKeys"),
    ("webdriverChooseCancelOnVisiblePrompt", "webdriverChooseCancelOnVisibleConfirmation")
  ]

  lemma AliasesAgree(i: nat)
    requires i < |Aliases|
    ensures EmitterFor(Aliases[i].0).Some?
    ensures EmitterFor(Aliases[i].0) == EmitterFor(Aliases[i].1)
  {
  }

  /** Kinds that share an emitter emit the same code for the same arguments. */
  lemma SharedEmitterSameCode(env: Env, a: string, b: string, target: Argument, value: Argument)
    requires EmitterFor(a).Some? && EmitterFor(a) == EmitterFor(b)
    ensures Emit(env, Command(a, target, value)) == Emit(env, Command(b, target, value))
  {
  }

  /** The kinds whose emitters move the indentation baseline. */
  const ControlFlowCommands: set<string> := {"do", "else", "elseIf", "end", "if", "repeatIf", "times", "while"}

  /** Every kind that moves the baseline is routed to a control-flow emitter. */
  lemma ControlFlowCommandsMoveBaseline(env: Env, c: Command)
    requires c.command in ControlFlowCommands
    ensures EmitterFor(c.command).Some? && EmitterFor(c.command).value.MovesBaseline()
    ensures Emit(env, c).Success? && !Emit(env, c).value.Neutral()
  {
  }

  /**
    `forEach` is routed to the emitter as written, which leaves the baseline
    where it is; the `end` that closes it then outdents below the start level.
   */
  lemma {:induction false} ForEachRoutesAsWritten(env: Env, target: Argument, value: Argument)
    ensures Emit(env, Command("forEach", target, value)) == Success(EmitForEach(AsText(target), AsText(value)))
    ensures Emit(env, Command("forEach", target, value)).value.Neutral()
    ensures Emit(env, Command("end", target, value)) == Success(EmitEnd())
    ensures Run([Emit(env, Command("forEach", target, value)).value, Emit(env, Command("end", target, value)).value], 0) == None
  {
    ForEachEndUnbalanced(AsText(target), AsText(value), 0);
  }

  /** The kinds that emit an empty line whatever their arguments. */
  const SkippedCommands: set<string> :=
    {"answerOnNextPrompt", "chooseCancelOnNextConfirmation", "chooseCancelOnNextPrompt", "chooseOkOnNextConfirmation", "debugger"}

  lemma SkippedCommandsSkip(name: string)
    requires name in SkippedCommands
    ensures EmitterFor(name) == Some(Skip)
  {
  }

  lemma SkipEmitsEmptyLine(env: Env, c: Command)
    requires EmitterFor(c.command) == Some(Skip)
    ensures Emit(env, c) == Success(Line(""))
  {
  }

  // ---------------------------------------------------------------------------
  // Storing

  /** The kinds whose single statement stores a value in the variable store. */
  const StoreCommands: set<string> :=
    {"store", "storeJson", "storeText", "storeTitle", "storeValue", "storeWindowHandle", "storeXpathCount",
     "executeScript", "executeAsyncScript"}

  /** Every storing kind is routed to a storing emitter. */
  lemma StoreCommandsStore(name: string)
    requires name in StoreCommands
    ensures EmitterFor(name).Some? && EmitterFor(name).value.IsStoring()
  {
  }

  /**
    A storing emitter emits one line: nothing when the variable name is empty,
    otherwise an assignment that reads back as that name and its value expression.
   */
  lemma StoringEmitsAssignment(env: Env, id: EmitterId, target: Argument, value: Argument)
    requires id.IsStoring()
    ensures ApplyStoring(env, id, target, value).text == "" <==> StoredName(id, target, value) == ""
    ensures StoredName(id, target, value) != "" && '"' !in StoredName(id, target, value) ==>
      ParseAssignment(ApplyStoring(env, id, target, value).text) ==
        Some((StoredName(id, target, value), StoredExpression(env, id, target)))
  {
    var name := StoredName(id, target, value);
    if name != "" && '"' !in name {
      SetterRoundTrip(name, StoredExpression(env, id, target));
    }
  }

  // ---------------------------------------------------------------------------
  // Element actions

  /** `WxH` becomes the two dimensions; without an `x` the height prints as `undefined`. */
  lemma SetWindowSizeDimensions(w: string, h: string)
    requires 'x' !in w && 'x' !in h
    ensures EmitSetWindowSize(w + "x" + h) == "self.driver.set_window_size(" + w + ", " + h + ")"
    ensures EmitSetWindowSize(w) == "self.driver.set_window_size(" + w + ", undefined)"
  {
    SplitAfter(w, h, 'x');
    SplitWithout(h, 'x');
    SplitWithout(w, 'x');
    assert w + "x" + h == w + ['x'] + h;
  }

  /**
    `check` and `uncheck` find the same element; `check` clicks when the
    element is not selected, while `uncheck` tests the bound method itself.
   */
  lemma CheckAndUncheckGuards(env: Env, locator: string)
    ensures EmitCheck(env, locator).commands[0] == EmitUncheck(env, locator).commands[0] ==
      Statement(0, "element = " + FindElement(env, locator))
    ensures EmitCheck(env, locator).commands[1].text == "if element.is_selected() != True: element.click()"
    ensures EmitUncheck(env, locator).commands[1].text == "if element.is_selected: element.click()"
  {
  }

  /** The element actions bind the element that the locator adapter names in their first statement. */
  lemma ElementActionsBindLocatedElement(env: Env, locator: string, value: string)
    ensures var bind := Statement(0, "element = " + FindElement(env, locator));
      EmitDoubleClick(env, locator).commands[0] == bind && EmitEditContent(env, locator, value).commands[0] == bind &&
      EmitMouseDown(env, locator).commands[0] == bind && EmitMouseMove(env, locator).commands[0] == bind &&
      EmitMouseUp(env, locator).commands[0] == bind
  {
  }

  /** So do the verifications that inspect the element's state or its selected option. */
  lemma VerificationsBindLocatedElement(env: Env, locator: string, value: string)
    ensures var bind := Statement(0, "element = " + FindElement(env, locator));
      EmitVerifyEditable(env, locator).commands[0] == bind && EmitVerifyNotEditable(env, locator).commands[0] == bind &&
      EmitVerifySelectedLabel(env, locator, value).commands[0] == bind
  {
  }

  /**
    The positive and negative verifications side by side. The checked,
    editable and present pairs inspect the element the same way and differ
    only in the expected outcome: `True` against `False`, `> 0` against
    `== 0`. The text pair compares with `==` and `!=` against the same
    escaped text, but `verifyText` asserts in one statement where
    `verifyNotText` first binds `text`. The value pair reads the value the
    same way, yet `verifyValue` compares with the raw text and
    `verifyNotSelectedValue` with the escaped one.
   */
  lemma {:induction false} VerificationPolarity(env: Env, locator: string, text: string)
    ensures var c, n := EmitVerifyChecked(env, locator), EmitVerifyNotChecked(env, locator);
      c[..|c| - 4] == n[..|n| - 5] && c[|c| - 4..] == "True" && n[|n| - 5..] == "False"
    ensures EmitVerifyEditable(env, locator).commands[0] == EmitVerifyNotEditable(env, locator).commands[0]
    ensures EmitVerifyEditable(env, locator).commands[1].text == "assert element.is_enabled() is True"
    ensures EmitVerifyNotEditable(env, locator).commands[1].text == "assert element.is_enabled() is False"
    ensures EmitVerifyElementPresent(env, locator).commands[0] == EmitVerifyElementNotPresent(env, locator).commands[0]
    ensures EmitVerifyElementPresent(env, locator).commands[1].text == "assert len(elements) > 0"
    ensures EmitVerifyElementNotPresent(env, locator).commands[1].text == "assert len(elements) == 0"
    ensures EmitVerifyText(env, locator, text).commands[0].text ==
      "assert " + FindElement(env, locator) + ".text == " + Quote(env.emitText(text))
    ensures EmitVerifyNotText(env, locator, text).commands[1].text == "assert text != " + Quote(env.emitText(text))
    ensures EmitVerifyValue(env, locator, text).commands[0] == EmitVerifyNotSelectedValue(env, locator, text).commands[0]
    ensures EmitVerifyValue(env, locator, text).commands[1].text == "assert value == " + Quote(text)
    ensures EmitVerifyNotSelectedValue(env, locator, text).commands[1].text == "assert value != " + Quote(env.emitText(text))
    ensures |EmitVerifyText(env, locator, text).commands| == 1 && |EmitVerifyNotText(env, locator, text).commands| == 2
  {
    var p := "assert " + FindElement(env, locator) + ".is_selected() is ";
    assert EmitVerifyChecked(env, locator) == p + "True";
    assert EmitVerifyNotChecked(env, locator) == p + "False";
    PrefixThenRest(p, "True");
    PrefixThenRest(p, "False");
  }

  /**
    Every wait is one `WebDriverWait` statement on the driver, for the
    timeout in seconds (30 for `waitForText`), about the located element.
   */
  lemma WaitsShape(env: Env, id: EmitterId, t: string, v: string)
    requires id.IsWait()
    ensures var f := ApplyWait(env, id, t, v);
      |f.commands| == 1 && f.commands[0].level == 0 &&
      StartsWith(f.commands[0].text, "WebDriverWait(self.driver, " + (if id.WaitForText? then "30" else env.seconds(v)) + ").")
  {
    var l := env.locate(t);
    match id
    case WaitForElementEditable => WaitStatementHead(env.seconds(v), "until", "element_to_be_clickable", l, "");
    case WaitForElementPresent => WaitStatementHead(env.seconds(v), "until", "presence_of_element_located", l, "");
    case WaitForElementVisible => WaitStatementHead(env.seconds(v), "until", "visibility_of_element_located", l, "");
    case WaitForElementNotEditable => WaitStatementHead(env.seconds(v), "until_not", "element_to_be_clickable", l, "");
    case WaitForElementNotPresent => WaitStatementHead(env.seconds(v), "until", "invisibility_of_element_located", l, "");
    case WaitForElementNotVisible => WaitStatementHead(env.seconds(v), "until", "invisibility_of_element_located", l, "");
    case WaitForText => WaitStatementHead("30", "until", "text_to_be_present_in_element", l, ", " + Quote(v));
  }

  lemma WaitStatementHead(seconds: string, until: string, condition: string, locator: string, extra: string)
    ensures StartsWith(WaitStatement(seconds, until, condition, locator, extra), "WebDriverWait(self.driver, " + seconds + ").")
  {
    var head := "WebDriverWait(self.driver, " + seconds + ").";
    var tail := until + "(expected_conditions." + condition + "((" + locator + ")" + extra + "))";
    assert WaitStatement(seconds, until, condition, locator, extra) == head + tail;
    PrefixThenRest(head, tail);
  }

  /**
    `waitForElementNotPresent` and `waitForElementNotVisible` emit the same
    wait, and the not-editable wait negates the editable one with `until_not`.
   */
  lemma WaitPolarity(env: Env, t: string, v: string)
    ensures ApplyWait(env, WaitForElementNotPresent, t, v) == ApplyWait(env, WaitForElementNotVisible, t, v)
    ensures ApplyWait(env, WaitForElementEditable, t, v).commands ==
      [Statement(0, WaitStatement(env.seconds(v), "until", "element_to_be_clickable", env.locate(t), ""))]
    ensures ApplyWait(env, WaitForElementNotEditable, t, v).commands ==
      [Statement(0, WaitStatement(env.seconds(v), "until_not", "element_to_be_clickable", env.locate(t), ""))]
  {
  }
}
