/**
  Emitters that classify an address before producing a statement: opening a
  URL, switching frames and windows, splitting a locator at its attribute, and
  the two hooks around commands that open a new window.
 */
module Navigation {
  import opened Wrappers
  import opened Text
  import opened Fragments
  import opened Values

  // ---------------------------------------------------------------------------
  // open

  /** `/^(file|http|https):\/\//`. */
  predicate IsAbsoluteUrl(target: string)
  {
    StartsWith(target, "file://") || StartsWith(target, "http://") || StartsWith(target, "https://")
  }

  /** The URL navigated to: the target itself when absolute, else the base URL and the target. */
  function ResolveUrl(baseUrl: string, target: string): string
  {
    if IsAbsoluteUrl(target) then target else baseUrl + target
  }

  /** `open`: an absolute target verbatim, any other appended to the base URL, always quoted. */
  function EmitOpen(baseUrl: string, target: string): (r: string)
    ensures IsAbsoluteUrl(target) ==> r == "self.driver.get(" + Quote(target) + ")"
    ensures !IsAbsoluteUrl(target) ==> r == "self.driver.get(" + Quote(baseUrl + target) + ")"
  {
    "self.driver.get(" + Quote(ResolveUrl(baseUrl, target)) + ")"
  }

  /**
    With an absolute base URL every resolved URL is absolute, so opening the
    resolved URL again navigates to the same place.
   */
  lemma OpenIsIdempotent(baseUrl: string, target: string)
    requires IsAbsoluteUrl(baseUrl)
    ensures IsAbsoluteUrl(ResolveUrl(baseUrl, target))
    ensures EmitOpen(baseUrl, ResolveUrl(baseUrl, target)) == EmitOpen(baseUrl, target)
  {
    var u := baseUrl + target;
    if StartsWith(baseUrl, "file://") {
      assert u[..7] == baseUrl[..7];
    } else if StartsWith(baseUrl, "http://") {
      assert u[..7] == baseUrl[..7];
    } else {
      assert u[..8] == baseUrl[..8];
    }
  }

  /** A relative path is appended to the base URL. */
  lemma OpenRelativePath()
    ensures EmitOpen("https://x.test", "/login") == "self.driver.get(\"https://x.test/login\")"
  {
    assert !IsAbsoluteUrl("/login") by { assert "/login"[0] == '/'; }
  }

  // ---------------------------------------------------------------------------
  // Simplified number rendering

  predicate AllDigits(s: string)
  {
    forall i :: 0 <= i < |s| ==> IsDigit(s[i])
  }

  function StripLeadingZeros(s: string): (r: string)
    ensures |r| <= |s| && (|r| == 0 <==> |s| == 0)
    ensures r == s[|s| - |r|..]
    ensures forall k :: 0 <= k < |s| - |r| ==> s[k] == '0'
    ensures |r| > 1 ==> r[0] != '0'
    ensures AllDigits(s) && |s| > 0 ==> CanonicalDigits(r)
    decreases |s|
  {
    if |s| > 1 && s[0] == '0' then StripLeadingZeros(s[1..]) else s
  }

  /**
    Stands for `Math.floor(Number(p))` printed in a template, on unsigned
    decimal text: the integral part without leading zeros (`0` when empty or
    for the empty text), and `NaN` for anything else.
   */
  function FloorOfDecimalText(p: string): (r: string)
    ensures r == "NaN" || CanonicalDigits(r)
    ensures r == "NaN" <==>
      (p != "" && (p == "." || !AllDigits(p[..IndexOf(p, '.')]) ||
                   (IndexOf(p, '.') < |p| && !AllDigits(p[IndexOf(p, '.') + 1..]))))
  {
    var k := IndexOf(p, '.');
    var whole := p[..k];
    var fraction := if k < |p| then p[k + 1..] else "";
    if p == "" then "0"
    else if AllDigits(whole) && AllDigits(fraction) && (|whole| > 0 || |fraction| > 0) then
      (if whole == "" then "0" else StripLeadingZeros(whole))
    else "NaN"
  }

  /** Length of the run of decimal digits at the start of `s`. */
  function DigitRun(s: string): (n: nat)
    ensures n <= |s| && AllDigits(s[..n])
    ensures n < |s| ==> !IsDigit(s[n])
    decreases |s|
  {
    if |s| > 0 && IsDigit(s[0]) then 1 + DigitRun(s[1..]) else 0
  }

  /**
    Stands for `parseInt(s)` printed in a template: the leading decimal digits
    without leading zeros, or `NaN` when `s` does not start with a digit.
   */
  function IntegerPrefixText(s: string): (r: string)
    ensures r == "NaN" <==> |s| == 0 || !IsDigit(s[0])
    ensures r != "NaN" ==> CanonicalDigits(r)
  {
    var n := DigitRun(s);
    if n == 0 then "NaN" else StripLeadingZeros(s[..n])
  }

  /**
    The integer-prefix rendering reads leading decimal digits only: `007x`
    prints `7`, and `0x1A` prints `0`, where `parseInt` would read base 16.
   */
  lemma IntegerPrefixExamples()
    ensures IntegerPrefixText("007x") == "7"
    ensures IntegerPrefixText("0x1A") == "0"
  {
    assert DigitRun("x") == 0;
    assert DigitRun("7x") == 1;
    assert DigitRun("07x") == 2;
    assert DigitRun("x1A") == 0;
  }

  /** Canonical digits are printed back unchanged by both renderings. */
  lemma CanonicalRendering(d: string)
    requires CanonicalDigits(d)
    ensures FloorOfDecimalText(d) == d
    ensures IntegerPrefixText(d) == d
  {
    assert '.' !in d by {
      forall j | 0 <= j < |d| ensures d[j] != '.' { assert IsDigit(d[j]); }
    }
    assert IndexOf(d, '.') == |d|;
    assert d[..|d|] == d;
    DigitRunAll(d);
  }

  lemma {:induction false} DigitRunAll(d: string)
    requires AllDigits(d)
    ensures DigitRun(d) == |d|
    decreases |d|
  {
    if |d| > 0 {
      assert AllDigits(d[1..]) by {
        forall j | 0 <= j < |d[1..]| ensures IsDigit(d[1..][j]) { assert d[1..][j] == d[j + 1]; }
      }
      DigitRunAll(d[1..]);
    }
  }

  // ---------------------------------------------------------------------------
  // selectFrame

  /** `selectFrame`: back to the top document, a frame by index, or a frame found by a locator. */
  function EmitSelectFrame(locate: string -> string, frameLocation: string): (f: Fragment)
    ensures f.Neutral()
  {
    if frameLocation == "relative=top" || frameLocation == "relative=parent" then
      Line("self.driver.switch_to.default_content()")
    else if StartsWith(frameLocation, "index=") then
      Line("self.driver.switch_to.frame(" + FloorOfDecimalText(SecondPiece(frameLocation, "index=")) + ")")
    else
      Statements([ "element = self.driver.find_element(" + locate(frameLocation) + ")",
                   "self.driver.switch_to.frame(element)" ])
  }

  /** The three address forms of `selectFrame`. */
  lemma SelectFrameDispatch(locate: string -> string, frameLocation: string)
    ensures EmitSelectFrame(locate, frameLocation) == Line("self.driver.switch_to.default_content()") <==>
      frameLocation == "relative=top" || frameLocation == "relative=parent"
    ensures frameLocation != "relative=top" && frameLocation != "relative=parent" && StartsWith(frameLocation, "index=") ==>
      EmitSelectFrame(locate, frameLocation).Line? &&
      StartsWith(EmitSelectFrame(locate, frameLocation).text, "self.driver.switch_to.frame(")
    ensures !StartsWith(frameLocation, "index=") && frameLocation != "relative=top" && frameLocation != "relative=parent" ==>
      EmitSelectFrame(locate, frameLocation).Block? &&
      EmitSelectFrame(locate, frameLocation).commands ==
        [ Statement(0, "element = self.driver.find_element(" + locate(frameLocation) + ")"),
          Statement(0, "self.driver.switch_to.frame(element)") ]
  {
    var f := EmitSelectFrame(locate, frameLocation);
    if StartsWith(frameLocation, "index=") && frameLocation != "relative=top" && frameLocation != "relative=parent" {
      var t := "self.driver.switch_to.frame(" + FloorOfDecimalText(SecondPiece(frameLocation, "index=")) + ")";
      assert t[..|"self.driver.switch_to.frame("|] == "self.driver.switch_to.frame(";
      assert t != "self.driver.switch_to.default_content()" by {
        assert t[22] != "self.driver.switch_to.default_content()"[22];
      }
    }
  }

  /** `index=N` for a canonical numeral switches to frame `N`. */
  lemma SelectFrameByIndex(locate: string -> string, n: string)
    requires CanonicalDigits(n)
    ensures EmitSelectFrame(locate, "index=" + n) == Line("self.driver.switch_to.frame(" + n + ")")
  {
    var s := "index=" + n;
    assert s[..6] == "index=";
    assert s[6..] == n;
    assert 'i' !in n by {
      forall j | 0 <= j < |n| ensures n[j] != 'i' { assert IsDigit(n[j]); }
    }
    NotOccursWithoutFirst(n, "index=");
    UpToFirstWithout(n, "index=");
    CanonicalRendering(n);
    assert s != "relative=top" && s != "relative=parent" by { assert s[0] == 'i'; }
  }

  /**
    `index=p` switches to the frame whose number is the floor rendering of
    `p`, whatever `p` is, as long as it holds no second `index=`: `index=1.5`
    switches to frame `1` and `index=abc` to frame `NaN`
    (`FloorExamples`).
   */
  lemma SelectFrameByAnyIndex(locate: string -> string, p: string)
    requires !Occurs(p, "index=")
    ensures EmitSelectFrame(locate, "index=" + p) == Line("self.driver.switch_to.frame(" + FloorOfDecimalText(p) + ")")
  {
    var s := "index=" + p;
    PrefixThenRest("index=", p);
    UpToFirstWithout(p, "index=");
    assert s != "relative=top" && s != "relative=parent" by { assert s[0] == 'i'; }
  }

  /**
    The floor rendering that `index=` uses: a fractional index is floored,
    and a non-numeric one prints as `NaN`.
   */
  lemma FloorExamples()
    ensures FloorOfDecimalText("1.5") == "1"
    ensures FloorOfDecimalText("abc") == "NaN"
  {
    var half, word := "1.5", "abc";
    assert IndexOf(half, '.') == 1;
    assert half[..1] == "1" && half[2..] == "5";
    assert !IsDigit(word[0]);
  }

  // ---------------------------------------------------------------------------
  // selectWindow

  const SelectWindowError: string := "Can only emit `select window` using handles"

  /**
    `selectWindow`: by handle (unquoted, an expression), by name (quoted), the
    first window, or a captured index; any other form is rejected.
   */
  function EmitSelectWindow(windowLocation: string): (r: Result<Fragment, string>)
    ensures r.Success? ==> r.value.Neutral()
  {
    if StartsWith(windowLocation, "handle=") then
      Success(Line("self.driver.switch_to.window(" + SecondPiece(windowLocation, "handle=") + ")"))
    else if StartsWith(windowLocation, "name=") then
      Success(Line("self.driver.switch_to.window(" + Quote(SecondPiece(windowLocation, "name=")) + ")"))
    else if StartsWith(windowLocation, "win_ser_") then
      if windowLocation == "win_ser_local" then
        Success(Statements(["self.driver.switch_to.window(self.driver.window_handles[0])"]))
      else
        var index := IntegerPrefixText(windowLocation[|"win_ser_"|..]);
        Success(Statements(["self.driver.switch_to.window(self.driver.window_handles[" + index + "])"]))
    else Failure(SelectWindowError)
  }

  /** Exactly the forms without one of the three prefixes are rejected, always with the same message. */
  lemma SelectWindowRejectsIff(windowLocation: string)
    ensures EmitSelectWindow(windowLocation).Failure? <==>
      !StartsWith(windowLocation, "handle=") && !StartsWith(windowLocation, "name=") && !StartsWith(windowLocation, "win_ser_")
    ensures EmitSelectWindow(windowLocation).Failure? ==> EmitSelectWindow(windowLocation).error == SelectWindowError
  {
  }

  /** A handle or name without a second occurrence of its prefix is used whole; the serial forms index the handle list. */
  lemma SelectWindowForms(h: string, n: string)
    requires !Occurs(h, "handle=") && !Occurs(n, "name=")
    ensures EmitSelectWindow("handle=" + h) == Success(Line("self.driver.switch_to.window(" + h + ")"))
    ensures EmitSelectWindow("name=" + n) == Success(Line("self.driver.switch_to.window(" + Quote(n) + ")"))
    ensures EmitSelectWindow("win_ser_local") ==
      Success(Statements(["self.driver.switch_to.window(self.driver.window_handles[0])"]))
  {
    var a := "handle=" + h;
    assert a[..7] == "handle=" && a[7..] == h;
    UpToFirstWithout(h, "handle=");
    var b := "name=" + n;
    assert b[..5] == "name=" && b[5..] == n;
    assert !StartsWith(b, "handle=") by { assert b[0] != 'h'; }
    UpToFirstWithout(n, "name=");
    var c := "win_ser_local";
    assert !StartsWith(c, "handle=") && !StartsWith(c, "name=") by { assert c[0] == 'w'; }
    assert StartsWith(c, "win_ser_");
  }

  /** `win_ser_N` for a canonical numeral other than the local window switches to handle `N`. */
  lemma SelectWindowBySerial(n: string)
    requires CanonicalDigits(n)
    ensures EmitSelectWindow("win_ser_" + n) ==
      Success(Statements(["self.driver.switch_to.window(self.driver.window_handles[" + n + "])"]))
  {
    var s := "win_ser_" + n;
    assert s[..8] == "win_ser_" && s[8..] == n;
    assert !StartsWith(s, "handle=") && !StartsWith(s, "name=") by { assert s[0] == 'w'; }
    assert s != "win_ser_local" by { assert IsDigit(s[8]); }
    CanonicalRendering(n);
  }

  /** `handle=foo` switches to the expression `foo`; `bogus` is rejected. */
  lemma SelectWindowExamples()
    ensures EmitSelectWindow("handle=foo") == Success(Line("self.driver.switch_to.window(foo)"))
    ensures EmitSelectWindow("bogus") == Failure(SelectWindowError)
  {
    NotOccursWithoutFirst("foo", "handle=");
    SelectWindowForms("foo", "");
    assert "handle=" + "foo" == "handle=foo";
    assert "self.driver.switch_to.window(" + "foo" + ")" == "self.driver.switch_to.window(foo)";
    assert !StartsWith("bogus", "name=") && !StartsWith("bogus", "handle=") && !StartsWith("bogus", "win_ser_") by {
      assert "bogus"[0] == 'b';
    }
  }

  // ---------------------------------------------------------------------------
  // storeAttribute

  /** `locator@attribute` split at the last `@`, with JavaScript's `slice` on a missing `@`. */
  function SplitAttributeLocator(locator: string): (string, string)
  {
    var at := LastIndexOf(locator, '@');
    (SliceTo(locator, at), SliceFrom(locator, at + 1))
  }

  /**
    With an `@`, the element locator and the attribute name reassemble the
    locator and the name holds no `@`. Without one, `slice(0, -1)` drops the
    last character and the attribute name is the whole locator.
   */
  lemma SplitAttributeLocatorSpec(locator: string)
    ensures '@' in locator ==>
      SplitAttributeLocator(locator).0 + "@" + SplitAttributeLocator(locator).1 == locator &&
      '@' !in SplitAttributeLocator(locator).1
    ensures '@' !in locator ==>
      SplitAttributeLocator(locator).1 == locator &&
      SplitAttributeLocator(locator).0 == locator[..if |locator| == 0 then 0 else |locator| - 1]
  {
    var at := LastIndexOf(locator, '@');
    if '@' in locator {
      var j :| 0 <= j < |locator| && locator[j] == '@';
      assert at >= 0;
      assert locator[..at] + "@" + locator[at + 1..] == locator by {
        assert locator == locator[..at] + [locator[at]] + locator[at + 1..];
      }
      var tail := locator[at + 1..];
      assert '@' !in tail by {
        forall k | 0 <= k < |tail| ensures tail[k] != '@' {
          assert tail[k] == locator[at + 1 + k];
        }
      }
    } else {
      assert at == -1;
    }
  }

  /** `storeAttribute`: read the attribute of the element, then store it (nothing when the name is empty). */
  function EmitStoreAttribute(locate: string -> string, locator: string, varName: string): (f: Fragment)
    ensures f.Block? && f.Neutral() && |f.commands| == 2
    ensures f.commands[0].text ==
      "attribute = self.driver.find_element(" + locate(SplitAttributeLocator(locator).0) + ").get_attribute(" +
      Quote(SplitAttributeLocator(locator).1) + ")"
    ensures f.commands[1] == Statement(0, VariableSetter(varName, "attribute"))
    ensures f.commands[1].text == "" <==> varName == ""
  {
    var (element, attribute) := SplitAttributeLocator(locator);
    Statements([ "attribute = self.driver.find_element(" + locate(element) + ").get_attribute(" + Quote(attribute) + ")",
                 VariableSetter(varName, "attribute") ])
  }

  // ---------------------------------------------------------------------------
  // New-window hooks

  const WaitForWindowName: string := "wait_for_window"

  /** The snapshot of the open window handles taken before the command. */
  const HandleSnapshot: string := VariableLookup("window_handles") + " = self.driver.window_handles"

  /** The statement that stores the newly opened handle under `name`. */
  function StoreNewHandle(name: string, timeout: string): string
  {
    VariableLookup(name) + " = self." + WaitForWindowName + "(" + timeout + ")"
  }

  /** Snapshot, the command itself, then the wait for the new handle, one per line. */
  function EmitNewWindowHandling(windowHandleName: string, windowTimeout: string, emittedCommand: string): string
  {
    Join([HandleSnapshot, emittedCommand, StoreNewHandle(windowHandleName, windowTimeout)], "\n")
  }

  /**
    The hook emits exactly three lines, in order: the snapshot, the command,
    and the assignment of `wait_for_window(timeout)` to the named variable.
   */
  lemma {:induction false} NewWindowHandlingOrder(windowHandleName: string, windowTimeout: string, emittedCommand: string)
    requires '\n' !in emittedCommand && '\n' !in windowHandleName && '\n' !in windowTimeout
    ensures Split(EmitNewWindowHandling(windowHandleName, windowTimeout, emittedCommand), '\n') ==
      [HandleSnapshot, emittedCommand, StoreNewHandle(windowHandleName, windowTimeout)]
  {
    var last := StoreNewHandle(windowHandleName, windowTimeout);
    var lines := [HandleSnapshot, emittedCommand, last];
    StoreIsOneLine(windowHandleName, windowTimeout);
    SnapshotIsOneLine();
    assert forall i :: 0 <= i < |lines| ==> '\n' !in lines[i];
    SplitJoin(lines, '\n');
  }

  lemma {:induction false} StoreIsOneLine(windowHandleName: string, windowTimeout: string)
    requires '\n' !in windowHandleName && '\n' !in windowTimeout
    ensures '\n' !in StoreNewHandle(windowHandleName, windowTimeout)
  {
    assert '\n' !in VarsOpen;
    assert '\n' !in "\"] = self.wait_for_window(";
  }

  lemma SnapshotIsOneLine()
    ensures '\n' !in HandleSnapshot
  {
    assert '\n' !in VariableLookup("window_handles");
    assert '\n' !in " = self.driver.window_handles";
  }

  /** A helper method the hook relies on: its name and its body. */
  datatype HelperMethod = HelperMethod(name: string, commands: seq<Statement>)

  /** `def <name>(self, timeout = 2):`. */
  function MethodDeclaration(name: string): string
  {
    "def " + name + "(self, timeout = 2):"
  }

  /**
    `wait_for_window`: sleep, compare the current handles with the snapshot,
    and return the handle that is new.
   */
  function EmitWaitForWindow(): (m: HelperMethod)
    ensures m.name == WaitForWindowName
    ensures |m.commands| == 5
    ensures forall i :: 0 <= i < 4 ==> m.commands[i].level == 0
    ensures m.commands[4].level == 1
    ensures m.commands[0] == Statement(0, "time.sleep(round(timeout / 1000))")
    ensures m.commands[1] == Statement(0, "wh_now = self.driver.window_handles")
    ensures m.commands[2].text == "wh_then = " + VariableLookup("window_handles")
    ensures m.commands[3] == Statement(0, "if len(wh_now) > len(wh_then):")
    ensures m.commands[4] == Statement(1, "return set(wh_now).difference(set(wh_then)).pop()")
  {
    HelperMethod(WaitForWindowName, [
      Statement(0, "time.sleep(round(timeout / 1000))"),
      Statement(0, "wh_now = self.driver.window_handles"),
      Statement(0, "wh_then = " + VariableLookup("window_handles")),
      Statement(0, "if len(wh_now) > len(wh_then):"),
      Statement(1, "return set(wh_now).difference(set(wh_then)).pop()")
    ])
  }

  /** The snapshot stores into the variable the helper compares against. */
  lemma {:induction false} SnapshotFeedsHelper()
    ensures HandleSnapshot == VariableSetter("window_handles", "self.driver.window_handles")
    ensures EmitWaitForWindow().commands[2].text == "wh_then = " + VariableLookup("window_handles")
  {
    var name := "window_handles";
    assert name[0] == 'w';
    assert VariableSetter(name, "self.driver.window_handles") == VariableLookup(name) + " = self.driver.window_handles";
  }

  /** The last line of the hook calls the helper by the name it is declared under. */
  lemma {:induction false} StoreCallsHelper(windowHandleName: string, windowTimeout: string)
    ensures StoreNewHandle(windowHandleName, windowTimeout) ==
      VariableLookup(windowHandleName) + " = self." + EmitWaitForWindow().name + "(" + windowTimeout + ")"
  {
  }

  /**
    The helper is declared as a method of the test class whose `timeout`
    defaults to `2`. The body divides it by 1000, so the default is two
    milliseconds and the sleep rounds to zero seconds.
   */
  lemma {:induction false} HelperDeclaration()
    ensures MethodDeclaration(EmitWaitForWindow().name) == "def wait_for_window(self, timeout = 2):"
  {
  }
}
