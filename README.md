# Python pytest code export: the command emitters

A model of the command emitters of Selenium IDE's Python/pytest code exporter,
`packages/code-export-python-pytest/src/command.ts`. A recorded command has a
kind such as `click`, `storeText` or `if`, a target and a value. The exporter
looks the kind up in a table of 98 entries. Each entry is an emitter that turns
the command into Python: either one statement, or a block of statements with
indentation levels. A control-flow block also carries a starting and an ending
level adjustment, which the host uses to indent what follows.

The model is pure. There are datatypes for commands, scripts, key inputs and
emitted fragments, and functions for the emitters. Lemmas give their
properties. The modules are:

- `Wrappers`: `Option` and `Result`.
- `Text`: the JavaScript string operations the emitters rely on (`split`,
  `indexOf`, `lastIndexOf`, `slice`, `startsWith`, `join`).
- `Fragments`: what an emitter returns, either a `Line` or a `Block` with
  adjustments and `skipEmitting`. It also defines `Run`, a replay of fragment
  levels from a baseline as the host places them. Its `None` for a level
  below zero is the model's own marker: the host itself does not detect bad
  nesting.
- `Values`: the variable store (`variableLookup`, `variableSetter`), script
  expressions and arguments, literal classification in `assert`, message
  interpolation for `echo`, and key sequences for `sendKeys`/`type`.
- `ControlFlow`: the control-flow emitters, plus a nesting theorem. A
  well-nested recording of `if`/`elseIf`/`else`/`end`, `while`, `times`,
  `do`/`repeatIf` and `forEach` returns to its baseline and never goes below
  level zero. The theorem's `forEach` loop uses the corrected emitter
  `EmitForEachBalanced`. The kind table routes `forEach` to the emitter as
  written, `EmitForEach`, and with it `forEach` followed by `end` adds up to -1
  (see "Findings").
- `Navigation`: `open`, `selectFrame`, `selectWindow`, `storeAttribute`, the
  new-window hook and the `wait_for_window` helper.
- `Emitters`: every other emitter, the kind table, `emit`, and lemmas about
  the table.

Everything outside the module comes in as a parameter, in the `Env` datatype:

- the locator adapter (`location.emit`);
- the option adapter (`selection.emit`);
- the text matcher (`exporter.emit.text`);
- the test-name sanitiser;
- the rendering of a pause in seconds;
- the base URL (`global.baseUrl`).

A command's target and value are an `Argument`. It is text, a script (a body
plus the names of the variables passed to it), or a list of key tokens.

## Model

| member | source | states |
|---|---|---|
| Fragments.Statements | packages/code-export-python-pytest/src/command.ts:206-213 | A block of statements at level 0, in the given order, with no level adjustment and not skipped |
| Fragments.RunAppend | packages/code-export-python-pytest/src/command.ts:261-355 | Replaying two fragment sequences one after the other is replaying the first and continuing from where it ends, or failing when it fails |
| Fragments.RunOne | packages/code-export-python-pytest/src/command.ts:261-355 | One fragment is placed at the baseline plus its starting adjustment, and the next baseline adds its ending adjustment; below zero the replay fails |
| Fragments.RunTotal | packages/code-export-python-pytest/src/command.ts:261-355 | A replay that succeeds ends at the baseline plus the sum of all adjustments |
| Values.VariableSetter | packages/code-export-python-pytest/src/command.ts:148-150 | The setter yields no statement exactly when the variable name is empty |
| Values.VariableLookup | packages/code-export-python-pytest/src/command.ts:144-146 | A read opens with `self.vars["`, holds exactly the name, and closes with `"]` |
| Values.SetterRoundTrip | packages/code-export-python-pytest/src/command.ts:144-150 | For a non-empty name without a double quote, the setter's statement parses back into exactly that name and that value expression |
| Values.ScriptArgumentsShape | packages/code-export-python-pytest/src/command.ts:255-259 | The argument list is empty iff the script receives no variables; otherwise it is `, ` followed by one variable read per name, in order |
| Values.ExpressionScriptShape | packages/code-export-python-pytest/src/command.ts:249-253 | A condition is an `execute_script` call whose literal returns the script body. Without variables nothing follows the literal; with variables it is followed by `, ` and the variable reads joined by `,` |
| Values.AssertClassification | packages/code-export-python-pytest/src/command.ts:187-198 | The left side of `assert` always reads the named variable. `true`/`false` become `True`/`False`, `0` and non-zero numerals stay verbatim, and everything else is quoted |
| Values.AssertLiteral | packages/code-export-python-pytest/src/command.ts:187-198 | An unquoted operand is never empty and is the value itself or its capitalisation; a quoted one is neither `0` nor a non-zero numeral |
| Values.AssertQuotedIff | packages/code-export-python-pytest/src/command.ts:187-198 | The right-hand operand starts with a double quote iff the value is not a recognised literal |
| Values.AssertZeroPointZeroIsQuoted | packages/code-export-python-pytest/src/command.ts:187-198 | `0.0` is numeric but falsy and not `0`, so it is quoted; `0` and `1.5` stay unquoted |
| Values.AssertWordOperands | packages/code-export-python-pytest/src/command.ts:187-198 | `true` becomes `True`; a word that is no literal is quoted |
| Values.MatchAt | packages/code-export-python-pytest/src/command.ts:394-404 | A match of the variable-read pattern at a position lies inside the message |
| Values.TranslateToPythonString | packages/code-export-python-pytest/src/command.ts:394-404 | The emitted message always opens a double-quoted Python literal |
| Values.FirstMatch | packages/code-export-python-pytest/src/command.ts:394-404 | The search returns the leftmost match, and reports none only when no position matches |
| Values.InterpolationWithoutMatch | packages/code-export-python-pytest/src/command.ts:394-404 | A message with no variable read is emitted as a plain quoted literal |
| Values.InterpolationLeftmost | packages/code-export-python-pytest/src/command.ts:394-404 | Only the leftmost match is replaced by `{}`, and `.format` gets exactly the matched text |
| Values.LookupMatches | packages/code-export-python-pytest/src/command.ts:394-404 | A variable read of a word-character name is itself one whole match of the pattern |
| Values.EchoOfVariable | packages/code-export-python-pytest/src/command.ts:406-409 | Echoing a lone variable read prints `"{}".format(<that read>)` |
| Values.OnlyFirstVariableInterpolated | packages/code-export-python-pytest/src/command.ts:394-404 | With two variable reads, only the first is interpolated; the second stays in the literal |
| Values.DotMatchesAnyCharacter | packages/code-export-python-pytest/src/command.ts:394-404 | The pattern's unescaped `.` lets any character except a line terminator stand between `self` and `vars`, and such a text is interpolated too |
| Values.BracesAreNotPlaceholders | packages/code-export-python-pytest/src/command.ts:394-404 | An example of `InterpolationWithoutMatch`: braces in a message without a variable read are left in a plain literal |
| Values.LineEnd | packages/code-export-python-pytest/src/command.ts:613-634 | The first line terminator at or after a position: the limit of the `.*` in the key pattern |
| Values.KeyCaptureFrom | packages/code-export-python-pytest/src/command.ts:613-634 | A captured key name never spans a line break |
| Values.LastCloseAtOrBefore | packages/code-export-python-pytest/src/command.ts:613-634 | The last `']` in a range (greedy `.*`), or none when the range has no `']` |
| Values.KeyNameToken | packages/code-export-python-pytest/src/command.ts:613-634 | In a key list, `Key['X']` becomes `Keys.X` for any one-line key name, even one containing `']` |
| Values.SendKeysInOrder | packages/code-export-python-pytest/src/command.ts:613-634 | A key list is emitted token by token, in order, separated by `, ` |
| Values.SingleAgreesWithList | packages/code-export-python-pytest/src/command.ts:613-634 | One string and a one-element list give the same text, except for `Key[...]`, which only the list translates |
| Values.KeyTokenClasses | packages/code-export-python-pytest/src/command.ts:613-634 | A key token that opens with `self.vars[` passes through, one opening with `Key[` names a `Keys` constant, and anything else is quoted |
| Values.KeyTokenExamples | packages/code-export-python-pytest/src/command.ts:613-634 | `self.vars['k']` and `self.vars[0]` pass through unquoted; `Key[ENTER]` has no quoted name and becomes `Keys.undefined` |
| Values.NoCaptureWithoutQuote | packages/code-export-python-pytest/src/command.ts:613-634 | A text without a single quote has no key capture |
| ControlFlow.EmitDo | packages/code-export-python-pytest/src/command.ts:261-269 | `do` emits `condition = True` and then `while condition:`, and indents what follows by one |
| ControlFlow.EmitElse | packages/code-export-python-pytest/src/command.ts:271-277 | `else:` is placed one level out and indents what follows by one |
| ControlFlow.EmitElseIf | packages/code-export-python-pytest/src/command.ts:279-290 | Exactly `elif <condition expression>:`, placed one level out, indenting what follows by one |
| ControlFlow.EmitEnd | packages/code-export-python-pytest/src/command.ts:292-298 | `end` emits nothing (skipped) and outdents by one |
| ControlFlow.EmitIf | packages/code-export-python-pytest/src/command.ts:300-307 | Exactly `if <condition expression>:`, indenting what follows by one |
| ControlFlow.EmitForEach | packages/code-export-python-pytest/src/command.ts:309-329 | `forEach` as written: binds the collection, opens the loop and binds the iterator at level 1, with no level adjustment |
| ControlFlow.EmitForEachBalanced | packages/code-export-python-pytest/src/command.ts:309-329 | The same three statements, indenting what follows by one, as its closing `end` requires |
| ControlFlow.EmitRepeatIf | packages/code-export-python-pytest/src/command.ts:331-341 | Exactly `condition = <condition expression>`, outdenting by one to close its `do` |
| ControlFlow.EmitTimes | packages/code-export-python-pytest/src/command.ts:343-346 | `times` opens `for i in range(0, <target>):` and indents by one |
| ControlFlow.EmitWhile | packages/code-export-python-pytest/src/command.ts:348-355 | Exactly `while <condition expression>:`, indenting what follows by one |
| ControlFlow.ConditionHeaders | packages/code-export-python-pytest/src/command.ts:279-355 | The `if`, `elif` and `while` headers and the `repeatIf` assignment all hold the `execute_script` condition right after their keyword, a corollary of the emitters' own contracts |
| ControlFlow.DoLoopFlag | packages/code-export-python-pytest/src/command.ts:261-269 | `do` sets and tests the flag that `repeatIf` assigns |
| ControlFlow.LayoutReturnsToBaseline | packages/code-export-python-pytest/src/command.ts:261-355 | Replaying a well-nested block from any baseline never goes below zero and ends at the baseline |
| ControlFlow.IfChainReturnsToBaseline | packages/code-export-python-pytest/src/command.ts:271-307 | An `if` chain with any `elseIf` branches and an optional `else`, closed by `end`, returns to the baseline |
| ControlFlow.LoopReturnsToBaseline | packages/code-export-python-pytest/src/command.ts:261-355 | A loop opener, a well-nested body and a closer (`end` or `repeatIf`) return to the baseline |
| ControlFlow.LayoutAllReturnsToBaseline | packages/code-export-python-pytest/src/command.ts:261-355 | A sequence of well-nested blocks returns to the baseline |
| ControlFlow.BranchesReturnToBaseline | packages/code-export-python-pytest/src/command.ts:279-290 | `elseIf` branches keep the level inside the `if` body |
| ControlFlow.WellNestedAdjustmentsSumToZero | packages/code-export-python-pytest/src/command.ts:261-355 | The level adjustments of a well-nested recording add up to zero |
| ControlFlow.ForEachEndUnbalanced | packages/code-export-python-pytest/src/command.ts:309-329 | As written, `forEach` followed by `end` adds up to -1, and from level zero the replay goes negative |
| ControlFlow.ForEachBalancedNeutral | packages/code-export-python-pytest/src/command.ts:309-329 | The corrected `forEach` indents its body by one, and with `end` returns to the baseline |
| Navigation.EmitOpen | packages/code-export-python-pytest/src/command.ts:502-508 | A `file`, `http` or `https` URL is opened as given; anything else is appended to the base URL |
| Navigation.OpenIsIdempotent | packages/code-export-python-pytest/src/command.ts:502-508 | With an absolute base URL, opening the resolved URL emits the same call as opening the original target |
| Navigation.OpenRelativePath | packages/code-export-python-pytest/src/command.ts:502-508 | `/login` against `https://x.test` opens `https://x.test/login` |
| Navigation.DigitRun | packages/code-export-python-pytest/src/command.ts:596-596 | The run of leading digits that `parseInt` reads |
| Navigation.StripLeadingZeros | packages/code-export-python-pytest/src/command.ts:551-611 | Only leading zeros are removed, a non-empty text stays non-empty, and non-empty digits become canonical digits |
| Navigation.FloorOfDecimalText | packages/code-export-python-pytest/src/command.ts:551-573 | The rendering is `NaN` or canonical digits, and `NaN` exactly when the text is non-empty and is not an unsigned decimal numeral |
| Navigation.IntegerPrefixText | packages/code-export-python-pytest/src/command.ts:596-596 | The rendering is `NaN` exactly when the text does not start with a digit; otherwise it is canonical digits |
| Navigation.IntegerPrefixExamples | packages/code-export-python-pytest/src/command.ts:596-596 | `007x` renders as `7`; `0x1A` renders as `0`, since only decimal digits are read |
| Navigation.CanonicalRendering | packages/code-export-python-pytest/src/command.ts:551-611 | Canonical digits are printed unchanged by both the floor-of-number and the integer-prefix renderings |
| Navigation.EmitSelectFrame | packages/code-export-python-pytest/src/command.ts:551-573 | `selectFrame` never moves the indentation level |
| Navigation.SelectFrameDispatch | packages/code-export-python-pytest/src/command.ts:551-573 | `relative=top` and `relative=parent` are exactly the cases that switch to the default content. `index=` switches by number, and anything else switches to the located element |
| Navigation.SelectFrameByAnyIndex | packages/code-export-python-pytest/src/command.ts:551-573 | `index=p` (with no second `index=` in `p`) switches to the frame given by the floor rendering of `p` |
| Navigation.FloorExamples | packages/code-export-python-pytest/src/command.ts:551-573 | The floor rendering turns `1.5` into `1` and `abc` into `NaN` |
| Navigation.SelectFrameByIndex | packages/code-export-python-pytest/src/command.ts:551-573 | `index=N` with canonical digits switches to frame `N` |
| Navigation.EmitSelectWindow | packages/code-export-python-pytest/src/command.ts:575-611 | A window selection that succeeds never moves the indentation level |
| Navigation.SelectWindowRejectsIff | packages/code-export-python-pytest/src/command.ts:575-611 | `selectWindow` is rejected exactly when the address starts with none of `handle=`, `name=` or `win_ser_`, and the error says it can only emit handles |
| Navigation.SelectWindowForms | packages/code-export-python-pytest/src/command.ts:575-611 | `handle=` switches to the raw handle, `name=` to the quoted name, and `win_ser_local` to the first window handle |
| Navigation.SelectWindowBySerial | packages/code-export-python-pytest/src/command.ts:575-611 | `win_ser_N` switches to window handle number `N` |
| Navigation.SelectWindowExamples | packages/code-export-python-pytest/src/command.ts:575-611 | `handle=foo` switches to `foo`, and `bogus` is rejected |
| Navigation.SplitAttributeLocatorSpec | packages/code-export-python-pytest/src/command.ts:654-668 | With an `@`, the locator splits at its last `@` into element locator and attribute name. Without one, the attribute is the whole locator and the element locator drops its last character |
| Navigation.EmitStoreAttribute | packages/code-export-python-pytest/src/command.ts:654-668 | Two statements: read the attribute of the located element into `attribute`, then the setter storing `attribute` under the variable name. The second is empty iff the variable name is |
| Navigation.NewWindowHandlingOrder | packages/code-export-python-pytest/src/command.ts:176-185 | The hook emits three lines in order: snapshot the handles, the command itself, store the new handle |
| Navigation.StoreIsOneLine | packages/code-export-python-pytest/src/command.ts:176-185 | The store line holds no line break when the name and timeout hold none |
| Navigation.SnapshotIsOneLine | packages/code-export-python-pytest/src/command.ts:176-185 | The snapshot line holds no line break |
| Navigation.EmitWaitForWindow | packages/code-export-python-pytest/src/command.ts:152-174 | The helper `wait_for_window` has exactly five statements: sleep for the timeout divided by 1000, read the current handles, read the stored `window_handles`, compare their counts, and, nested, return the new handle |
| Navigation.SnapshotFeedsHelper | packages/code-export-python-pytest/src/command.ts:152-185 | The hook's snapshot stores into the very variable the helper reads |
| Navigation.StoreCallsHelper | packages/code-export-python-pytest/src/command.ts:176-185 | The hook's last line stores the result of calling the helper, by its declared name, with the timeout |
| Navigation.HelperDeclaration | packages/code-export-python-pytest/src/command.ts:152-156 | The helper is declared as a test-class method whose `timeout` defaults to `2`; the body divides it by 1000, so that default is two milliseconds |
| Emitters.SingleQuoted | packages/code-export-python-pytest/src/command.ts:427-433 | Every double quote of the script becomes a single quote and nothing else changes |
| Emitters.ApplyControlFlow | packages/code-export-python-pytest/src/command.ts:261-355 | Every control-flow emitter but `forEach` moves the indentation level; `forEach`, as written, does not |
| Emitters.ApplyStateVerification | packages/code-export-python-pytest/src/command.ts:732-798 | The checks on an element's state or presence leave the level unchanged |
| Emitters.ApplyVerification | packages/code-export-python-pytest/src/command.ts:800-882 | The assertions on values, texts and titles leave the level unchanged |
| Emitters.ApplyWait | packages/code-export-python-pytest/src/command.ts:884-986 | The waits leave the level unchanged |
| Emitters.ApplyElementAction | packages/code-export-python-pytest/src/command.ts:215-730 | Clicks, selections, checks and drags leave the level unchanged |
| Emitters.ApplyInput | packages/code-export-python-pytest/src/command.ts:411-717 | `editContent`, `sendKeys`/`type` and `submit` leave the level unchanged |
| Emitters.ApplyMouse | packages/code-export-python-pytest/src/command.ts:442-500 | The mouse emitters leave the level unchanged |
| Emitters.ApplyBrowserAction | packages/code-export-python-pytest/src/command.ts:206-573 | Window size, prompts, close, open and frame switching leave the level unchanged |
| Emitters.ApplyStoring | packages/code-export-python-pytest/src/command.ts:427-703 | Every storing emitter emits exactly one line |
| Emitters.ApplyOther | packages/code-export-python-pytest/src/command.ts:406-913 | `echo`, `pause`, `run`, `runScript`, `setSpeed`, `storeAttribute` and the skipped kinds leave the level unchanged |
| Emitters.Apply | packages/code-export-python-pytest/src/command.ts:29-128 | Only `selectWindow` can fail, with its own message. A result moves the level iff its emitter is a control-flow one other than `forEach` |
| Emitters.Emit | packages/code-export-python-pytest/src/command.ts:137-142 | An unsupported-command error arises exactly for kinds that are not own keys of the table. The only other failure is the rejected window address |
| Emitters.InheritedKeysUnsupported | packages/code-export-python-pytest/src/command.ts:137-142 | `constructor` and `toString`, which the JavaScript lookup resolves through the object prototype, are unsupported kinds in the model |
| Emitters.VerifyMirrorsAssert | packages/code-export-python-pytest/src/command.ts:29-128 | Each `verify...` kind is in the table and shares its emitter with the matching `assert...` kind |
| Emitters.AliasesAgree | packages/code-export-python-pytest/src/command.ts:29-128 | The `...At` forms, the option, alert and prompt aliases, and `type` share the emitter of their base kind |
| Emitters.SharedEmitterSameCode | packages/code-export-python-pytest/src/command.ts:137-142 | Two kinds with the same emitter emit the same code for the same target and value |
| Emitters.ControlFlowCommandsMoveBaseline | packages/code-export-python-pytest/src/command.ts:29-128 | The eight control-flow kinds other than `forEach` reach a control-flow emitter, succeed, and move the level |
| Emitters.ForEachRoutesAsWritten | packages/code-export-python-pytest/src/command.ts:68-68 | `forEach` is dispatched to the as-written emitter, which leaves the level unchanged; followed by `end` from level zero, the replay goes below zero |
| Emitters.SkippedCommandsSkip | packages/code-export-python-pytest/src/command.ts:29-128 | `answerOnNextPrompt`, the three choose-on-next kinds and `debugger` are mapped to `skip` |
| Emitters.SkipEmitsEmptyLine | packages/code-export-python-pytest/src/command.ts:911-913 | A kind mapped to `skip` emits one empty line, whatever its arguments |
| Emitters.StoreCommandsStore | packages/code-export-python-pytest/src/command.ts:29-128 | `store`, the six `store...` readers and the two script executions are storing kinds |
| Emitters.StoringEmitsAssignment | packages/code-export-python-pytest/src/command.ts:650-703 | A storing kind emits nothing iff its variable name is empty. Otherwise it emits an assignment that parses back into that name and the stored expression |
| Emitters.SetWindowSizeDimensions | packages/code-export-python-pytest/src/command.ts:528-531 | `WxH` becomes width and height; without an `x`, the height prints as `undefined` |
| Emitters.VerificationPolarity | packages/code-export-python-pytest/src/command.ts:732-878 | The checked, editable and present pairs inspect the element the same way and differ only in `True`/`False` and `> 0`/`== 0`. `verifyText` asserts `==` in one statement, while `verifyNotText` binds `text` and asserts `!=`, both on the same escaped text. `verifyValue` and `verifyNotSelectedValue` read the value the same way, but the first compares with the raw text and the second with the escaped text |
| Emitters.WaitsShape | packages/code-export-python-pytest/src/command.ts:884-986 | Every wait is one `WebDriverWait` statement on the driver for the timeout in seconds, 30 for `waitForText` |
| Emitters.WaitStatementHead | packages/code-export-python-pytest/src/command.ts:884-986 | A wait statement opens with `WebDriverWait(self.driver, <seconds>).` |
| Emitters.WaitPolarity | packages/code-export-python-pytest/src/command.ts:884-986 | The not-present and not-visible waits emit the same code; the not-editable wait is the editable one with `until_not` |
| Emitters.CheckAndUncheckGuards | packages/code-export-python-pytest/src/command.ts:719-730 | `check` and `uncheck` locate the same element. `check` clicks when `is_selected()` is not true, while `uncheck` tests the bound method `is_selected` itself |
| Emitters.ElementActionsBindLocatedElement | packages/code-export-python-pytest/src/command.ts:357-500 | `doubleClick`, `editContent` and the mouse-down, mouse-move and mouse-up emitters first bind the located element |
| Emitters.VerificationsBindLocatedElement | packages/code-export-python-pytest/src/command.ts:740-751 | `verifyEditable`, `verifyNotEditable` and `verifySelectedLabel` first bind the located element |

## Left out

- The locator adapter (`location.emit`), the option adapter (`selection.emit`), the text matcher (`exporter.emit.text`) and `exporter.parsers.sanitizeName` belong to the shared exporter package. They are function parameters in `Env`.
- `global.baseUrl` is the `baseUrl` field of `Env`.
- Emitters.Emit: the adapters in `Env` are total functions, so a rejection by the locator or option adapter, which aborts emission in the exporter, is not modelled. "Only `selectWindow` can fail" holds only on that assumption. The lookup `emitters[command.command]` is modelled on the table's own keys: in JavaScript, the names of inherited object members (`constructor`, `toString`, `valueOf`, `hasOwnProperty`, `__proto__` and the rest) resolve to built-in functions, while the model reports them as unsupported (`InheritedKeysUnsupported`).
- The runtime's `exporter.emit.command` and `exporter.register.preprocessors`, and the `register` wrapper, are not modelled. `Emit` stands for the table lookup and the emitter call. The host's placement of fragments is modelled only as far as `Fragments.Run` replays levels.
- Promises and `async`/`await` are not modelled: every emitter is a function returning its text directly.
- `emitPause` and the waits (lines 884-986) divide milliseconds by 1000 and print a JavaScript number. That floating-point rendering is the `seconds` parameter of `Env`.
- Navigation.CanonicalRendering: `Math.floor(Number(...))` in `selectFrame` and `parseInt` in `selectWindow` are modelled on decimal digits only, with exact integers. Exponents, whitespace, `Infinity` and negative numbers are not modelled. The floor-of-number rendering (`FloorOfDecimalText`) renders anything that is not an unsigned decimal numeral as `NaN`. The integer-prefix rendering (`IntegerPrefixText`) reads the leading decimal digits and ignores the rest, as `parseInt` does, and is `NaN` only when the text does not start with a digit. `parseInt`'s `0x` prefix, which selects base 16, is not modelled: `0x1A` renders as `0` where JavaScript gives 26. Floating-point precision is not modelled either: in JavaScript, numerals above 2^53 lose digits, and from 1e21 on they print in exponent form, so there the "printed unchanged" of this lemma does not hold.
- Values.AssertClassification: `!!Number(value)` in `emitAssert` is modelled for decimal numerals with an optional sign. Hexadecimal, exponent forms, surrounding whitespace and `Infinity` count as non-numeric, although JavaScript would treat them as numbers. Float underflow is not modelled either: a decimal smaller than about 5e-324 written out in full (a long run of zeros after the point, then a non-zero digit) is the number 0 in JavaScript, so it is falsy and quoted, whereas the model counts it as non-zero and leaves it unquoted.
- The coercion of a command's target and value is the model's own (`AsText`, `AsScript`, `AsKeys`). Scripts and key lists reach an emitter only in the shape that emitter expects. A key list given where text is expected is joined with `,`, as a JavaScript array would be.
- `emitNewWindowHandling` is modelled as a standalone function of the window-handle name, the timeout and the emitted command. Whether the runtime calls it for a given command depends on the recording, which is outside this file. The emitted command is taken as text: when the command's emitter returns a block, the source's template string would print it as `[object Object]`, and the model does not describe that case.
- Strings are sequences of characters. JavaScript's UTF-16 code units, regular-expression Unicode handling and `String(undefined)` are not modelled, except the literal `undefined` that `setWindowSize` and key lists print for a missing piece.
- `type` is mapped to the `sendKeys` emitter, because `emitType`'s body is the same as `emitSendKeys`'s.
- The file's `export default` object and its `extras` are not modelled: they only expose the functions above.

## Findings

| source | as written | input that shows it | evidently intended | confidence | as-written member | corrected member |
|---|---|---|---|---|---|---|
| packages/code-export-python-pytest/src/command.ts:309-329 | `emitControlFlowForEach` returns its three statements with no `endingLevelAdjustment`. Yet the `end` that closes the loop outdents by one (lines 292-298) | A `forEach` directly followed by `end` at level 0: the adjustments add up to -1, and the replay of `end` goes below level 0. The loop body is also not indented | `forEach` opens a block like `while` and `times` do, with `endingLevelAdjustment: 1`, so that its body is indented and `end` returns to the baseline | not executed | ControlFlow.ForEachEndUnbalanced | ControlFlow.ForEachBalancedNeutral |
