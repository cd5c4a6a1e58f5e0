/**
  The value formatter: how recorded names, literals, scripts, messages and key
  sequences become Python expression text in the exported pytest file.
 */
module Values {
  import opened Wrappers
  import opened Text

  // ---------------------------------------------------------------------------
  // The test's variable store, `self.vars`

  /** The opening of every variable read: `self.vars["`. */
  const VarsOpen: string := "self.vars[\""

  /** What key input tests for to pass a value through unquoted: `self.vars[`, without the double quote. */
  const StorePrefix: string := "self.vars["

  /** The expression that reads variable `name` from the store: the name sits verbatim between the brackets. */
  function VariableLookup(name: string): (r: string)
    ensures |r| == |VarsOpen| + |name| + 2
    ensures StartsWith(r, VarsOpen) && StartsWith(r, StorePrefix)
    ensures r[|VarsOpen|..|VarsOpen| + |name|] == name && r[|r| - 2..] == "\"]"
  {
    VarsOpen + name + "\"]"
  }

  /** The statement that stores `value` under `name`, or nothing when the name is empty. */
  function VariableSetter(name: string, value: string): (r: string)
    ensures r == "" <==> name == ""
  {
    if name == "" then "" else VariableLookup(name) + " = " + value
  }

  /**
    Reads an assignment statement back into its variable name and value
    expression: the inverse of `VariableSetter` on names without a double quote.
   */
  function ParseAssignment(r: string): Option<(string, string)>
  {
    if !StartsWith(r, VarsOpen) then None
    else
      var rest := r[|VarsOpen|..];
      var k := IndexOf(rest, '"');
      if 0 < k && StartsWith(rest[k..], "\"] = ") then Some((rest[..k], rest[k + 5..])) else None
  }

  /** Storing under a non-empty name can be read back into exactly that name and value. */
  lemma SetterRoundTrip(name: string, value: string)
    requires name != "" && '"' !in name
    ensures ParseAssignment(VariableSetter(name, value)) == Some((name, value))
  {
    var tail := "\"] = " + value;
    var rest := name + tail;
    assert VariableSetter(name, value) == VarsOpen + rest;
    PrefixThenRest(VarsOpen, rest);
    IndexOfAfter(name, tail, '"');
    PrefixThenRest(name, tail);
    PrefixThenRest("\"] = ", value);
  }

  /** `p + t` starts with `p`, and dropping `p` leaves `t`; taking `|p|` gives back `p`. */
  lemma PrefixThenRest(p: string, t: string)
    ensures StartsWith(p + t, p)
    ensures (p + t)[|p|..] == t && (p + t)[..|p|] == p
  {
  }

  /** The first occurrence of `c` in `a + b` is at `|a|` when `a` lacks `c` and `b` starts with it. */
  lemma {:induction false} IndexOfAfter(a: string, b: string, c: char)
    requires c !in a && |b| > 0 && b[0] == c
    ensures IndexOf(a + b, c) == |a|
    decreases |a|
  {
    if |a| == 0 {
      assert a + b == b;
    } else {
      assert (a + b)[1..] == a[1..] + b;
      IndexOfAfter(a[1..], b, c);
    }
  }

  // ---------------------------------------------------------------------------
  // Scripts

  /** A script body and the names of the variables it receives as `arguments`. */
  datatype Script = Script(body: string, argv: seq<string>)

  /** The trailing argument list passed to `execute_script`: `, ` and the lookups joined by `,`. */
  function GenerateScriptArguments(script: Script): string
  {
    (if |script.argv| > 0 then ", " else "") + Join(Map(VariableLookup, script.argv), ",")
  }

  /** The first half of every condition: an `execute_script` call returning the body's value. */
  const ExpressionOpen: string := "self.driver.execute_script(\"return ("

  /** A condition expression: the body wrapped in `return (...)`, then the arguments. */
  function GenerateExpressionScript(script: Script): string
  {
    ExpressionOpen + script.body + ")\"" + GenerateScriptArguments(script) + ")"
  }

  /**
    The argument list is empty exactly when no variables are passed; otherwise
    it is `, ` followed by one variable read per name, in order, which splitting
    on `,` recovers when no name contains a comma.
   */
  lemma ScriptArgumentsShape(script: Script)
    ensures GenerateScriptArguments(script) == "" <==> |script.argv| == 0
    ensures |script.argv| > 0 && (forall i :: 0 <= i < |script.argv| ==> ',' !in script.argv[i]) ==>
      StartsWith(GenerateScriptArguments(script), ", ") &&
      Split(GenerateScriptArguments(script)[2..], ',') == Map(VariableLookup, script.argv)
  {
    var lookups := Map(VariableLookup, script.argv);
    if |script.argv| > 0 {
      assert |GenerateScriptArguments(script)| >= 2;
      if forall i :: 0 <= i < |script.argv| ==> ',' !in script.argv[i] {
        forall i | 0 <= i < |lookups| ensures ',' !in lookups[i] {
          assert lookups[i] == VarsOpen + script.argv[i] + "\"]";
        }
        SplitJoin(lookups, ',');
        assert GenerateScriptArguments(script) == ", " + Join(lookups, ",");
        assert GenerateScriptArguments(script)[2..] == Join(lookups, ",");
      }
    }
  }

  /** A condition is the `execute_script` call with the body in `return (...)`, then the arguments. */
  lemma ExpressionScriptShape(script: Script)
    ensures StartsWith(GenerateExpressionScript(script), ExpressionOpen)
    ensures |script.argv| == 0 ==> GenerateExpressionScript(script) == ExpressionOpen + script.body + ")\")"
    ensures |script.argv| > 0 ==>
      GenerateExpressionScript(script) ==
        ExpressionOpen + script.body + ")\", " + Join(Map(VariableLookup, script.argv), ",") + ")"
  {
    assert GenerateExpressionScript(script) == ExpressionOpen + (script.body + ")\"" + GenerateScriptArguments(script) + ")");
    ScriptArgumentsShape(script);
  }

  // ---------------------------------------------------------------------------
  // Literal classification in `assert`

  /**
    A decimal numeral without sign: digits with at most one `.` and at least
    one digit (`12`, `1.5`, `.5`, `1.`).
   */
  predicate UnsignedDecimal(u: string)
  {
    && |u| > 0
    && (forall i :: 0 <= i < |u| ==> IsDigit(u[i]) || u[i] == '.')
    && (forall i, j :: 0 <= i < j < |u| && u[i] == '.' ==> u[j] != '.')
    && (exists i :: 0 <= i < |u| && IsDigit(u[i]))
  }

  /** An unsigned decimal numeral optionally preceded by `+` or `-`. */
  predicate DecimalNumeral(s: string)
  {
    if |s| > 0 && (s[0] == '+' || s[0] == '-') then UnsignedDecimal(s[1..]) else UnsignedDecimal(s)
  }

  /**
    Stands for JavaScript's `!!Number(s)` on decimal numerals: the numeral has a
    non-zero digit. Every other text (the empty string, words, `NaN`) is falsy.
   */
  predicate NumberIsNonzero(s: string)
  {
    DecimalNumeral(s) && exists i :: 0 <= i < |s| && '1' <= s[i] <= '9'
  }

  /** The unquoted literal `assert` uses for `value`, or `None` when it is quoted instead. */
  function AssertLiteral(value: string): (r: Option<string>)
    ensures r.Some? ==> |r.value| > 0
    ensures r.Some? ==> r.value == value || r.value == Capitalize(value)
    ensures r.None? ==> value != "0" && !NumberIsNonzero(value)
  {
    if value == "true" || value == "false" then Some(Capitalize(value))
    else if value == "0" || NumberIsNonzero(value) then Some(value)
    else None
  }

  /** The right-hand side of the emitted comparison. */
  function AssertOperand(value: string): string
  {
    match AssertLiteral(value)
    case Some(literal) => literal
    case None => Quote(value)
  }

  /** `assert(self.vars["<name>"] == <operand>)`. */
  function EmitAssert(varName: string, value: string): string
  {
    "assert(" + VariableLookup(varName) + " == " + AssertOperand(value) + ")"
  }

  /**
    The three classes: a boolean token is capitalised, `0` or a numeral with a
    non-zero value is verbatim, and anything else is quoted; the left side is
    always the read of the named variable.
   */
  lemma AssertClassification(varName: string, value: string)
    ensures StartsWith(EmitAssert(varName, value), "assert(" + VariableLookup(varName) + " == ")
    ensures value == "true" ==> AssertOperand(value) == "True"
    ensures value == "false" ==> AssertOperand(value) == "False"
    ensures value != "true" && value != "false" && (value == "0" || NumberIsNonzero(value)) ==>
      AssertOperand(value) == value
    ensures value != "true" && value != "false" && value != "0" && !NumberIsNonzero(value) ==>
      AssertOperand(value) == Quote(value)
  {
    var head := "assert(" + VariableLookup(varName) + " == ";
    assert EmitAssert(varName, value) == head + (AssertOperand(value) + ")");
  }

  /** The operand starts with a double quote exactly when the value is not a recognised literal. */
  lemma {:induction false} AssertQuotedIff(value: string)
    ensures |AssertOperand(value)| > 0
    ensures AssertOperand(value)[0] == '"' <==> AssertLiteral(value).None?
  {
    if AssertLiteral(value).Some? && value != "true" && value != "false" && value != "0" {
      assert DecimalNumeral(value);
      if |value| > 0 && (value[0] == '+' || value[0] == '-') {
        assert value[0] != '"';
      } else {
        assert UnsignedDecimal(value);
        assert IsDigit(value[0]) || value[0] == '.';
      }
    }
  }

  /**
    `0.0` is quoted although it is a numeral: its value is zero (falsy) and it
    is not the text `0`. `0` and `1.5` stay unquoted; `true` becomes `True`.
   */
  lemma AssertZeroPointZeroIsQuoted()
    ensures AssertOperand("0.0") == "\"0.0\""
    ensures AssertOperand("0") == "0"
    ensures AssertOperand("1.5") == "1.5"
  {
    var f := "1.5";
    assert IsDigit(f[0]) && f[1] == '.' && IsDigit(f[2]);
    assert UnsignedDecimal(f);
    assert '1' <= f[0] <= '9';
  }

  /** `true` becomes Python's `True`; a word that is no literal is quoted. */
  lemma AssertWordOperands()
    ensures AssertOperand("true") == "True"
    ensures AssertOperand("hello") == "\"hello\""
  {
    var h := "hello";
    assert !IsDigit(h[0]) && h[0] != '.';
    assert !UnsignedDecimal(h);
  }

  // ---------------------------------------------------------------------------
  // Single-placeholder interpolation (`echo`)

  /** `\w`: an ASCII letter, digit or underscore. */
  predicate IsWordChar(c: char)
  {
    ('a' <= c <= 'z') || ('A' <= c <= 'Z') || ('0' <= c <= '9') || c == '_'
  }

  /** The characters a regular-expression `.` does not match. */
  predicate IsLineTerminator(c: char)
  {
    c == '\n' || c == '\r' || c == '\U{2028}' || c == '\U{2029}'
  }

  /** Length of the longest run of word characters starting at `i`. */
  function WordRun(s: string, i: nat): (n: nat)
    requires i <= |s|
    ensures i + n <= |s|
    ensures forall k :: i <= k < i + n ==> IsWordChar(s[k])
    ensures i + n < |s| ==> !IsWordChar(s[i + n])
    decreases |s| - i
  {
    if i < |s| && IsWordChar(s[i]) then 1 + WordRun(s, i + 1) else 0
  }

  /** `self`, any character but a line terminator, then `vars["`, starting at `i`. */
  predicate PatternHeadAt(s: string, i: nat)
  {
    && i + 11 <= |s|
    && s[i] == 's' && s[i + 1] == 'e' && s[i + 2] == 'l' && s[i + 3] == 'f'
    && !IsLineTerminator(s[i + 4])
    && s[i + 5] == 'v' && s[i + 6] == 'a' && s[i + 7] == 'r' && s[i + 8] == 's'
    && s[i + 9] == '[' && s[i + 10] == '"'
  }

  /**
    The length of the match of `/self.vars\["\w+"]/` at position `i`, if any.
    The `.` after `self` is unescaped in the pattern, so it matches any
    character but a line terminator. `\w+` is greedy and cannot give back
    characters, since the `"` that follows is not a word character.
   */
  function MatchAt(s: string, i: nat): (m: Option<nat>)
    requires i <= |s|
    ensures m.Some? ==> i + m.value <= |s|
  {
    if PatternHeadAt(s, i) then
      var w := WordRun(s, i + 11);
      if w > 0 && i + 11 + w + 2 <= |s| && s[i + 11 + w] == '"' && s[i + 12 + w] == ']' then Some(13 + w) else None
    else None
  }

  /** The leftmost match at or after `from`: its position and length. */
  function FirstMatch(s: string, from: nat): (r: Option<(nat, nat)>)
    requires from <= |s|
    ensures r.Some? ==> from <= r.value.0 <= |s| && MatchAt(s, r.value.0) == Some(r.value.1)
    ensures r.Some? ==> forall j :: from <= j < r.value.0 ==> MatchAt(s, j).None?
    ensures r.None? ==> forall j :: from <= j <= |s| ==> MatchAt(s, j).None?
    decreases |s| - from
  {
    if MatchAt(s, from).Some? then Some((from, MatchAt(s, from).value))
    else if from == |s| then None
    else FirstMatch(s, from + 1)
  }

  /**
    A message as a Python string: a plain literal when the pattern does not
    occur, otherwise a `.format` call whose one argument is the first match and
    whose literal has `{}` in that match's place.
   */
  function TranslateToPythonString(str: string): (r: string)
    ensures |r| >= 2 && r[0] == '"'
  {
    var m := FirstMatch(str, 0);
    if m.None? then Quote(str) else Placeholder(str, m.value.0, m.value.1)
  }

  /** The `.format` call for the match `str[i..i + n]`: `{}` in its place, the text as the one argument. */
  function Placeholder(str: string, i: nat, n: nat): string
    requires i + n <= |str|
  {
    Quote(str[..i] + "{}" + str[i + n..]) + ".format(" + str[i..i + n] + ")"
  }

  /** `echo`: print the interpolated message. */
  function EmitEcho(message: string): string
  {
    "print(" + TranslateToPythonString(message) + ")"
  }

  /** Without a match, the message is quoted unchanged. */
  lemma InterpolationWithoutMatch(str: string)
    requires forall j :: 0 <= j <= |str| ==> MatchAt(str, j).None?
    ensures TranslateToPythonString(str) == Quote(str)
  {
  }

  /**
    With a match, only the leftmost one is replaced by `{}`, and `.format` gets
    exactly that matched text as its one argument.
   */
  lemma InterpolationLeftmost(str: string, i: nat)
    requires i <= |str| && MatchAt(str, i).Some?
    requires forall j :: 0 <= j < i ==> MatchAt(str, j).None?
    ensures TranslateToPythonString(str) == Placeholder(str, i, MatchAt(str, i).value)
  {
    FirstMatchIsLeftmost(str, i);
  }

  /** The search finds the leftmost match. */
  lemma FirstMatchIsLeftmost(str: string, i: nat)
    requires i <= |str| && MatchAt(str, i).Some?
    requires forall j :: 0 <= j < i ==> MatchAt(str, j).None?
    ensures FirstMatch(str, 0) == Some((i, MatchAt(str, i).value))
  {
    var r := FirstMatch(str, 0);
    assert r.Some?;
    assert r.value.0 == i;
  }

  /** A word run ends exactly where the word characters stop. */
  lemma {:induction false} WordRunExact(s: string, i: nat, k: nat)
    requires i + k <= |s|
    requires forall j :: i <= j < i + k ==> IsWordChar(s[j])
    requires i + k == |s| || !IsWordChar(s[i + k])
    ensures WordRun(s, i) == k
    decreases k
  {
    if k > 0 {
      WordRunExact(s, i + 1, k - 1);
    }
  }

  predicate WordName(name: string)
  {
    |name| > 0 && forall j :: 0 <= j < |name| ==> IsWordChar(name[j])
  }

  /** A variable read of a word-character name is itself one match of the pattern. */
  lemma LookupMatches(name: string, rest: string)
    requires WordName(name)
    ensures MatchAt(VariableLookup(name) + rest, 0) == Some(|VariableLookup(name)|)
  {
    var s := VariableLookup(name) + rest;
    assert s == "self.vars[\"" + name + "\"]" + rest;
    assert PatternHeadAt(s, 0);
    forall j | 11 <= j < 11 + |name| ensures IsWordChar(s[j]) {
      assert s[j] == name[j - 11];
    }
    assert s[11 + |name|] == '"';
    WordRunExact(s, 11, |name|);
  }

  /** Echoing a lone variable read formats that variable into `{}`. */
  lemma EchoOfVariable(name: string)
    requires WordName(name)
    ensures EmitEcho(VariableLookup(name)) == "print(\"{}\".format(" + VariableLookup(name) + "))"
  {
    var s := VariableLookup(name);
    LookupMatches(name, "");
    assert s + "" == s;
    InterpolationLeftmost(s, 0);
    assert s[..0] + "{}" + s[|s|..] == "{}";
    assert s[0..|s|] == s;
  }

  /** Of two variable lookups only the first is interpolated; the second stays in the literal. */
  lemma {:induction false} OnlyFirstVariableInterpolated(a: string, b: string)
    requires WordName(a) && WordName(b)
    ensures TranslateToPythonString(VariableLookup(a) + " " + VariableLookup(b)) ==
      Quote("{} " + VariableLookup(b)) + ".format(" + VariableLookup(a) + ")"
  {
    var first := VariableLookup(a);
    var rest := " " + VariableLookup(b);
    var s := first + rest;
    var n := |first|;
    LookupMatches(a, rest);
    assert MatchAt(s, 0) == Some(n);
    InterpolationLeftmost(s, 0);
    assert TranslateToPythonString(s) == Placeholder(s, 0, n);
    assert s[n..] == rest;
    assert s[0..n] == first;
    assert s[..0] == "";
    assert "" + "{}" + rest == "{} " + VariableLookup(b);
    assert Placeholder(s, 0, n) == Quote("{} " + VariableLookup(b)) + ".format(" + first + ")";
    assert s == VariableLookup(a) + " " + VariableLookup(b);
  }

  /**
    The unescaped `.`: any character but a line terminator may stand between
    `self` and `vars`, so `self-vars["x"]` is interpolated as if it were a
    variable read.
   */
  lemma DotMatchesAnyCharacter(d: char, name: string)
    requires !IsLineTerminator(d) && WordName(name)
    ensures var s := "self" + [d] + "vars[\"" + name + "\"]";
      TranslateToPythonString(s) == Quote("{}") + ".format(" + s + ")"
  {
    var s := "self" + [d] + "vars[\"" + name + "\"]";
    assert PatternHeadAt(s, 0);
    forall j | 11 <= j < 11 + |name| ensures IsWordChar(s[j]) {
      assert s[j] == name[j - 11];
    }
    assert s[11 + |name|] == '"';
    WordRunExact(s, 11, |name|);
    assert MatchAt(s, 0) == Some(|s|);
    InterpolationLeftmost(s, 0);
    assert s[..0] == "" && s[|s|..] == "" && s[0..|s|] == s;
    assert "" + "{}" + "" == "{}";
  }

  /** A message with no `self` in it (`Hi {there}`) is a plain literal. */
  lemma BracesAreNotPlaceholders()
    ensures TranslateToPythonString("Hi {there}") == "\"Hi {there}\""
  {
  }

  // ---------------------------------------------------------------------------
  // Key sequences (`sendKeys`, `type`)

  /** A value to type: either one string or a list of tokens. */
  datatype KeysInput = One(value: string) | Many(values: seq<string>)

  /** The first line terminator at or after `start`, or `|s|`. */
  function LineEnd(s: string, start: nat): (e: nat)
    requires start <= |s|
    ensures start <= e <= |s|
    ensures forall k :: start <= k < e ==> !IsLineTerminator(s[k])
    ensures e < |s| ==> IsLineTerminator(s[e])
    decreases |s| - start
  {
    if start == |s| || IsLineTerminator(s[start]) then start else LineEnd(s, start + 1)
  }

  /** The last `']` starting in `[start, j]`. */
  function LastCloseAtOrBefore(s: string, start: nat, j: int): (r: Option<nat>)
    ensures r.Some? ==> start <= r.value <= j && r.value + 2 <= |s| && s[r.value] == '\'' && s[r.value + 1] == ']'
    ensures r.Some? ==> forall k :: r.value < k <= j && k + 2 <= |s| ==> !(s[k] == '\'' && s[k + 1] == ']')
    ensures r.None? ==> forall k :: start <= k <= j && k + 2 <= |s| ==> !(s[k] == '\'' && s[k + 1] == ']')
    decreases if j < start then 0 else j - start + 1
  {
    if j < start then None
    else if j + 2 <= |s| && s[j] == '\'' && s[j + 1] == ']' then Some(j)
    else LastCloseAtOrBefore(s, start, j - 1)
  }

  /**
    The capture of `/\['(.*)'\]/` searched from `i`: the leftmost `['` that has
    a closing `']` on the same line, and, `.*` being greedy, the last such `']`.
   */
  function KeyCaptureFrom(s: string, i: nat): (r: Option<string>)
    ensures r.Some? ==> forall k :: 0 <= k < |r.value| ==> !IsLineTerminator(r.value[k])
    decreases |s| - i
  {
    if i + 2 > |s| then None
    else if s[i] == '[' && s[i + 1] == '\'' then
      match LastCloseAtOrBefore(s, i + 2, LineEnd(s, i + 2))
      case Some(j) => Some(s[i + 2..j])
      case None => KeyCaptureFrom(s, i + 1)
    else KeyCaptureFrom(s, i + 1)
  }

  /** One element of a key list: a variable read as is, `Key['X']` as `Keys.X`, else quoted. */
  function KeyToken(s: string): string
  {
    if StartsWith(s, StorePrefix) then s
    else if StartsWith(s, "Key[") then
      "Keys." + (match KeyCaptureFrom(s, 0) case Some(k) => k case None => "undefined")
    else Quote(s)
  }

  /** The argument text of `send_keys(...)`. */
  function GenerateSendKeysInput(value: KeysInput): string
  {
    match value
    case Many(xs) => Join(Map(KeyToken, xs), ", ")
    case One(s) => if StartsWith(s, StorePrefix) then s else Quote(s)
  }

  /** `Key['X']` becomes `Keys.X` for any key name on one line, even one containing `']`. */
  lemma KeyNameToken(k: string)
    requires forall j :: 0 <= j < |k| ==> !IsLineTerminator(k[j])
    ensures KeyToken("Key['" + k + "']") == "Keys." + k
  {
    var s := "Key['" + k + "']";
    var n := |s|;
    assert s[..4] == "Key[";
    assert !StartsWith(s, StorePrefix) by { assert s[0] != StorePrefix[0]; }
    forall j | 5 <= j < n ensures !IsLineTerminator(s[j]) {
      if j < 5 + |k| { assert s[j] == k[j - 5]; }
    }
    assert LineEnd(s, 5) == n;
    assert s[n - 2] == '\'' && s[n - 1] == ']';
    assert LastCloseAtOrBefore(s, 5, n - 1) == Some(n - 2);
    assert LastCloseAtOrBefore(s, 5, n) == Some(n - 2);
    assert s[3] == '[' && s[4] == '\'';
    assert KeyCaptureFrom(s, 3) == Some(s[5..n - 2]);
    assert s[0] == 'K' && s[1] == 'e' && s[2] == 'y';
    assert KeyCaptureFrom(s, 0) == KeyCaptureFrom(s, 1) == KeyCaptureFrom(s, 2) == KeyCaptureFrom(s, 3);
    assert s[5..n - 2] == k;
    assert StartsWith(s, "Key[");
  }

  /** A key list is emitted in order: one more token adds `, ` and that token at the end. */
  lemma SendKeysInOrder(xs: seq<string>, x: string)
    ensures GenerateSendKeysInput(Many([])) == ""
    ensures GenerateSendKeysInput(Many([x])) == KeyToken(x)
    ensures |xs| > 0 ==> GenerateSendKeysInput(Many(xs + [x])) == GenerateSendKeysInput(Many(xs)) + ", " + KeyToken(x)
  {
    if |xs| > 0 {
      assert Map(KeyToken, xs + [x]) == Map(KeyToken, xs) + [KeyToken(x)];
      JoinSnoc(Map(KeyToken, xs), KeyToken(x), ", ");
    }
  }

  /** A single string and a one-element list agree, except for `Key[...]` tokens, which only a list translates. */
  lemma SingleAgreesWithList(s: string)
    ensures !StartsWith(s, "Key[") || StartsWith(s, StorePrefix) ==>
      GenerateSendKeysInput(One(s)) == GenerateSendKeysInput(Many([s]))
    ensures StartsWith(s, "Key[") ==> GenerateSendKeysInput(One(s)) == Quote(s)
  {
    if StartsWith(s, "Key[") {
      assert s[0] == 'K' != StorePrefix[0];
    }
  }

  /**
    The three kinds of key token: a text opening with `self.vars[` passes
    through as is, `Key[...]` names a `Keys` constant (with the capture, or
    `undefined` when there is none), and anything else is quoted.
   */
  lemma KeyTokenClasses(s: string)
    ensures StartsWith(s, StorePrefix) ==> KeyToken(s) == s
    ensures !StartsWith(s, StorePrefix) && StartsWith(s, "Key[") ==>
      KeyToken(s) == "Keys." + (match KeyCaptureFrom(s, 0) case Some(k) => k case None => "undefined")
    ensures !StartsWith(s, StorePrefix) && !StartsWith(s, "Key[") ==> KeyToken(s) == Quote(s)
    ensures StartsWith(s, StorePrefix) || StartsWith(s, "Key[") || KeyToken(s)[0] == '"'
  {
  }

  /**
    A read with a single-quoted or numeric index is still passed through
    unquoted, and `Key[ENTER]`, which has no quoted name, becomes `Keys.undefined`.
   */
  lemma KeyTokenExamples()
    ensures KeyToken("self.vars['k']") == "self.vars['k']"
    ensures GenerateSendKeysInput(One("self.vars[0]")) == "self.vars[0]"
    ensures KeyToken("Key[ENTER]") == "Keys.undefined"
  {
    var e := "Key[ENTER]";
    assert !StartsWith(e, StorePrefix) by { assert e[0] != StorePrefix[0]; }
    assert StartsWith(e, "Key[");
    forall i | 0 <= i < |e| ensures e[i] != '\'' { }
    NoCaptureWithoutQuote(e, 0);
  }

  /** Without a single quote there is no `['` to start a capture. */
  lemma {:induction false} NoCaptureWithoutQuote(s: string, i: nat)
    requires forall k :: 0 <= k < |s| ==> s[k] != '\''
    ensures KeyCaptureFrom(s, i) == None
    decreases |s| - i
  {
    if i + 2 <= |s| {
      NoCaptureWithoutQuote(s, i + 1);
    }
  }
}
