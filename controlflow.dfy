/**
  The control-flow commands. Each opener or closer is emitted as a block whose
  level adjustments tell the host how to move the baseline: openers indent
  what follows, `elseIf`/`else` step back out to place their header and then
  indent again, `end` only steps back out, and `repeatIf` closes a `do` loop.
 */
module ControlFlow {
  import opened Wrappers
  import opened Text
  import opened Fragments
  import opened Values

  /** The flag a `do` loop tests and its `repeatIf` reassigns. */
  const LoopFlag: string := "condition"

  /** `do`: a `while` loop over a flag that `repeatIf` later reassigns. */
  function EmitDo(): (f: Fragment)
    ensures f.Block? && !f.skipEmitting
    ensures f.StartAdjustment() == 0 && f.EndAdjustment() == 1
    ensures f.commands == [Statement(0, LoopFlag + " = True"), Statement(0, "while " + LoopFlag + ":")]
  {
    Block([Statement(0, LoopFlag + " = True"), Statement(0, "while " + LoopFlag + ":")], 0, 1, false)
  }

  /** `else`: outdent to place `else:`, then indent its body. */
  function EmitElse(): (f: Fragment)
    ensures f.Block? && !f.skipEmitting
    ensures f.StartAdjustment() == -1 && f.EndAdjustment() == 1
    ensures f.commands == [Statement(0, "else:")]
  {
    Block([Statement(0, "else:")], -1, 1, false)
  }

  /** `elseIf`: outdent to place `elif <condition>:`, then indent its body. */
  function EmitElseIf(script: Script): (f: Fragment)
    ensures f.Block? && !f.skipEmitting
    ensures f.StartAdjustment() == -1 && f.EndAdjustment() == 1
    ensures f.commands == [Statement(0, "elif " + GenerateExpressionScript(script) + ":")]
  {
    Block([Statement(0, "elif " + GenerateExpressionScript(script) + ":")], -1, 1, false)
  }

  /** `end`: no text, only the outdent that closes the innermost block. */
  function EmitEnd(): (f: Fragment)
    ensures f.Block? && f.skipEmitting
    ensures f.StartAdjustment() == -1 && f.EndAdjustment() == 0
    ensures f.commands == [Statement(0, "")]
  {
    Block([Statement(0, "")], -1, 0, true)
  }

  /** `if`: `if <condition>:`, indenting what follows. */
  function EmitIf(script: Script): (f: Fragment)
    ensures f.Block? && !f.skipEmitting
    ensures f.StartAdjustment() == 0 && f.EndAdjustment() == 1
    ensures f.commands == [Statement(0, "if " + GenerateExpressionScript(script) + ":")]
  {
    Block([Statement(0, "if " + GenerateExpressionScript(script) + ":")], 0, 1, false)
  }

  /**
    `forEach` as the source writes it: bind the collection, open the `for`,
    assign the iteratorVar inside it at level 1, and adjust nothing.
   */
  function EmitForEach(collectionVarName: string, iteratorVarName: string): (f: Fragment)
    ensures f.Block? && !f.skipEmitting && f.Neutral()
    ensures |f.commands| == 3
    ensures f.commands[0] == Statement(0, "collection = " + VariableLookup(collectionVarName))
    ensures f.commands[1] == Statement(0, "for entry in collection:")
    ensures f.commands[2] == Statement(1, VariableLookup(iteratorVarName) + " = entry")
  {
    Block(ForEachCommands(collectionVarName, iteratorVarName), 0, 0, false)
  }

  function ForEachCommands(collectionVarName: string, iteratorVarName: string): seq<Statement>
  {
    [ Statement(0, "collection = " + VariableLookup(collectionVarName)),
      Statement(0, "for entry in collection:"),
      Statement(1, VariableLookup(iteratorVarName) + " = entry") ]
  }

  /**
    `forEach` as it must be for the `end` that closes it: the same statements,
    with the ending adjustment of every other loop opener, so that the commands
    between `forEach` and `end` land in the loop body.
   */
  function EmitForEachBalanced(collectionVarName: string, iteratorVarName: string): (f: Fragment)
    ensures f.Block? && !f.skipEmitting
    ensures f.StartAdjustment() == 0 && f.EndAdjustment() == 1
    ensures f.commands == EmitForEach(collectionVarName, iteratorVarName).commands
  {
    Block(ForEachCommands(collectionVarName, iteratorVarName), 0, 1, false)
  }

  /** `repeatIf`: reassign the `do` flag from the condition, and leave the loop body. */
  function EmitRepeatIf(script: Script): (f: Fragment)
    ensures f.Block? && !f.skipEmitting
    ensures f.StartAdjustment() == 0 && f.EndAdjustment() == -1
    ensures f.commands == [Statement(0, LoopFlag + " = " + GenerateExpressionScript(script))]
  {
    Block([Statement(0, LoopFlag + " = " + GenerateExpressionScript(script))], 0, -1, false)
  }

  /** `times`: a counted `for` loop, indenting what follows. */
  function EmitTimes(target: string): (f: Fragment)
    ensures f.Block? && !f.skipEmitting
    ensures f.StartAdjustment() == 0 && f.EndAdjustment() == 1
    ensures f.commands == [Statement(0, "for i in range(0, " + target + "):")]
  {
    Block([Statement(0, "for i in range(0, " + target + "):")], 0, 1, false)
  }

  /** `while`: `while <condition>:`, indenting what follows. */
  function EmitWhile(script: Script): (f: Fragment)
    ensures f.Block? && !f.skipEmitting
    ensures f.StartAdjustment() == 0 && f.EndAdjustment() == 1
    ensures f.commands == [Statement(0, "while " + GenerateExpressionScript(script) + ":")]
  {
    Block([Statement(0, "while " + GenerateExpressionScript(script) + ":")], 0, 1, false)
  }

  /**
    Every condition is evaluated in the browser: the `if`, `elif` and `while`
    headers and the `repeatIf` assignment all hold the `execute_script` call
    that returns the script's value. A corollary of the emitters' own contracts
    and `ExpressionScriptShape`, stated as one fact about all four headers.
   */
  lemma ConditionHeaders(script: Script)
    ensures StartsWith(EmitIf(script).commands[0].text, "if " + ExpressionOpen)
    ensures StartsWith(EmitElseIf(script).commands[0].text, "elif " + ExpressionOpen)
    ensures StartsWith(EmitWhile(script).commands[0].text, "while " + ExpressionOpen)
    ensures StartsWith(EmitRepeatIf(script).commands[0].text, LoopFlag + " = " + ExpressionOpen)
  {
    ExpressionScriptShape(script);
    var e := GenerateExpressionScript(script);
    KeywordThenCondition("if ", e, ":");
    KeywordThenCondition("elif ", e, ":");
    KeywordThenCondition("while ", e, ":");
    KeywordThenCondition(LoopFlag + " = ", e, "");
    assert LoopFlag + " = " + e + "" == LoopFlag + " = " + e;
  }

  /** A keyword before a condition expression and anything after it. */
  lemma KeywordThenCondition(keyword: string, e: string, tail: string)
    requires StartsWith(e, ExpressionOpen)
    ensures StartsWith(keyword + e + tail, keyword + ExpressionOpen)
  {
    var s := keyword + e + tail;
    assert s[..|keyword| + |ExpressionOpen|] == keyword + ExpressionOpen by {
      forall k | 0 <= k < |keyword| + |ExpressionOpen|
        ensures s[k] == (keyword + ExpressionOpen)[k]
      {
        if k >= |keyword| { assert s[k] == e[k - |keyword|]; }
      }
    }
  }

  /** The `do` loop enters with its flag set and tests it; `repeatIf` assigns that same flag. */
  lemma DoLoopFlag(script: Script)
    ensures EmitDo().commands[0].text == LoopFlag + " = True"
    ensures EmitDo().commands[1].text == "while " + LoopFlag + ":"
    ensures StartsWith(EmitRepeatIf(script).commands[0].text, LoopFlag + " = ")
  {
    PrefixThenRest(LoopFlag + " = ", GenerateExpressionScript(script));
  }

  // ---------------------------------------------------------------------------
  // Well-nested recordings

  /**
    A well-nested recorded test: ordinary steps and the blocks the control-flow
    commands delimit. `Layout` recovers the flat command stream, emitted.
   */
  datatype Node =
    | Step(fragment: Fragment)
    | IfChain(condition: Script, body: seq<Node>, branches: seq<Branch>, hasElse: bool, elseBody: seq<Node>)
    | WhileLoop(condition: Script, body: seq<Node>)
    | TimesLoop(count: string, body: seq<Node>)
    | DoLoop(body: seq<Node>, condition: Script)
    | ForEachLoop(collection: string, iteratorVar: string, body: seq<Node>)

  /** One `elseIf` and the commands it governs. */
  datatype Branch = Branch(condition: Script, body: seq<Node>)

  /** Ordinary steps never move the baseline. */
  predicate WellFormed(n: Node)
    decreases n
  {
    match n
    case Step(f) => f.Neutral()
    case IfChain(_, body, branches, _, elseBody) => WellFormedAll(body) && WellFormedBranches(branches) && WellFormedAll(elseBody)
    case WhileLoop(_, body) => WellFormedAll(body)
    case TimesLoop(_, body) => WellFormedAll(body)
    case DoLoop(body, _) => WellFormedAll(body)
    case ForEachLoop(_, _, body) => WellFormedAll(body)
  }

  predicate WellFormedAll(ns: seq<Node>)
    decreases ns
  {
    |ns| > 0 ==> WellFormed(ns[0]) && WellFormedAll(ns[1..])
  }

  predicate WellFormedBranches(bs: seq<Branch>)
    decreases bs
  {
    |bs| > 0 ==> WellFormedAll(bs[0].body) && WellFormedBranches(bs[1..])
  }

  /** The fragments a block emits, in recorded order. */
  function Layout(n: Node): seq<Fragment>
    decreases n
  {
    match n
    case Step(f) => [f]
    case IfChain(c, body, branches, hasElse, elseBody) =>
      [EmitIf(c)] + LayoutAll(body) + LayoutBranches(branches)
      + (if hasElse then [EmitElse()] + LayoutAll(elseBody) else []) + [EmitEnd()]
    case WhileLoop(c, body) => [EmitWhile(c)] + LayoutAll(body) + [EmitEnd()]
    case TimesLoop(k, body) => [EmitTimes(k)] + LayoutAll(body) + [EmitEnd()]
    case DoLoop(body, c) => [EmitDo()] + LayoutAll(body) + [EmitRepeatIf(c)]
    case ForEachLoop(coll, it, body) => [EmitForEachBalanced(coll, it)] + LayoutAll(body) + [EmitEnd()]
  }

  function LayoutAll(ns: seq<Node>): seq<Fragment>
    decreases ns
  {
    if |ns| == 0 then [] else Layout(ns[0]) + LayoutAll(ns[1..])
  }

  function LayoutBranches(bs: seq<Branch>): seq<Fragment>
    decreases bs
  {
    if |bs| == 0 then [] else [EmitElseIf(bs[0].condition)] + LayoutAll(bs[0].body) + LayoutBranches(bs[1..])
  }

  /**
    Indentation neutrality: the host, replaying the fragments of a well-nested
    recording from any baseline, never reaches a negative level and ends where
    it started.
   */
  lemma {:induction false} LayoutReturnsToBaseline(n: Node, baseline: nat)
    requires WellFormed(n)
    ensures Run(Layout(n), baseline) == Some(baseline)
    decreases n, 1
  {
    match n
    case Step(f) =>
    case IfChain(c, body, branches, hasElse, elseBody) =>
      IfChainReturnsToBaseline(c, body, branches, hasElse, elseBody, baseline);
    case WhileLoop(c, body) =>
      LoopReturnsToBaseline(EmitWhile(c), body, EmitEnd(), baseline);
    case TimesLoop(k, body) =>
      LoopReturnsToBaseline(EmitTimes(k), body, EmitEnd(), baseline);
    case DoLoop(body, c) =>
      LoopReturnsToBaseline(EmitDo(), body, EmitRepeatIf(c), baseline);
    case ForEachLoop(coll, it, body) =>
      LoopReturnsToBaseline(EmitForEachBalanced(coll, it), body, EmitEnd(), baseline);
  }

  /** `if`, its body, its `elseIf` branches, an optional `else` and the closing `end`. */
  lemma {:induction false} IfChainReturnsToBaseline(
    c: Script, body: seq<Node>, branches: seq<Branch>, hasElse: bool, elseBody: seq<Node>, baseline: nat)
    requires WellFormed(IfChain(c, body, branches, hasElse, elseBody))
    ensures Run(Layout(IfChain(c, body, branches, hasElse, elseBody)), baseline) == Some(baseline)
    decreases IfChain(c, body, branches, hasElse, elseBody), 0
  {
    var inner := baseline + 1;
    var tail := if hasElse then [EmitElse()] + LayoutAll(elseBody) else [];
    if hasElse {
      LayoutAllReturnsToBaseline(elseBody, inner);
      RunAppend([EmitElse()], LayoutAll(elseBody), inner);
    }
    assert Run(tail, inner) == Some(inner);
    var prefix := [EmitIf(c)] + LayoutAll(body);
    LayoutAllReturnsToBaseline(body, inner);
    RunAppend([EmitIf(c)], LayoutAll(body), baseline);
    assert Run(prefix, baseline) == Some(inner);
    BranchesReturnToBaseline(branches, baseline);
    RunAppend(prefix, LayoutBranches(branches), baseline);
    var beforeElse := prefix + LayoutBranches(branches);
    assert Run(beforeElse, baseline) == Some(inner);
    RunAppend(beforeElse, tail, baseline);
    assert Run(beforeElse + tail, baseline) == Some(inner);
    RunAppend(beforeElse + tail, [EmitEnd()], baseline);
    RunOne(EmitEnd(), inner);
    var whole := beforeElse + tail + [EmitEnd()];
    assert Run(whole, baseline) == Some(baseline);
    assert Layout(IfChain(c, body, branches, hasElse, elseBody)) == whole;
  }

  /** An opener that indents by one, a well-nested body, and a closer that outdents by one. */
  lemma {:induction false} LoopReturnsToBaseline(open: Fragment, body: seq<Node>, close: Fragment, baseline: nat)
    requires WellFormedAll(body)
    requires open.StartAdjustment() == 0 && open.EndAdjustment() == 1
    requires close.StartAdjustment() + close.EndAdjustment() == -1
    requires close.StartAdjustment() >= -1 && close.EndAdjustment() >= -1
    ensures Run([open] + LayoutAll(body) + [close], baseline) == Some(baseline)
    decreases body, 3
  {
    LayoutAllReturnsToBaseline(body, baseline + 1);
    RunAppend([open], LayoutAll(body), baseline);
    RunAppend([open] + LayoutAll(body), [close], baseline);
  }

  lemma {:induction false} LayoutAllReturnsToBaseline(ns: seq<Node>, baseline: nat)
    requires WellFormedAll(ns)
    ensures Run(LayoutAll(ns), baseline) == Some(baseline)
    decreases ns, 2
  {
    if |ns| > 0 {
      LayoutReturnsToBaseline(ns[0], baseline);
      LayoutAllReturnsToBaseline(ns[1..], baseline);
      RunAppend(Layout(ns[0]), LayoutAll(ns[1..]), baseline);
    }
  }

  /** The `elseIf` branches are replayed inside the `if`, one level below `baseline`. */
  lemma {:induction false} BranchesReturnToBaseline(bs: seq<Branch>, baseline: nat)
    requires WellFormedBranches(bs)
    ensures Run(LayoutBranches(bs), baseline + 1) == Some(baseline + 1)
    decreases bs, 0
  {
    if |bs| > 0 {
      var inner := baseline + 1;
      LayoutAllReturnsToBaseline(bs[0].body, inner);
      BranchesReturnToBaseline(bs[1..], baseline);
      var head := [EmitElseIf(bs[0].condition)];
      RunAppend(head, LayoutAll(bs[0].body), inner);
      RunAppend(head + LayoutAll(bs[0].body), LayoutBranches(bs[1..]), inner);
    }
  }

  /** Consequently the adjustments over a well-nested recording sum to zero. */
  lemma WellNestedAdjustmentsSumToZero(ns: seq<Node>)
    requires WellFormedAll(ns)
    ensures TotalAdjustment(LayoutAll(ns)) == 0
  {
    LayoutAllReturnsToBaseline(ns, 0);
    RunTotal(LayoutAll(ns), 0);
  }

  /**
    As written, `forEach` adjusts nothing while its `end` outdents: the pair
    sums to -1, a recording that starts at the method's top level runs below
    it, and the commands recorded between them are placed at the level of the
    `for` header, outside the loop.
   */
  lemma ForEachEndUnbalanced(collection: string, iteratorVar: string, baseline: nat)
    ensures TotalAdjustment([EmitForEach(collection, iteratorVar), EmitEnd()]) == -1
    ensures Run([EmitForEach(collection, iteratorVar), EmitEnd()], 0) == None
    ensures Run([EmitForEach(collection, iteratorVar)], baseline) == Some(baseline)
  {
    var pair := [EmitForEach(collection, iteratorVar), EmitEnd()];
    assert pair[1..] == [EmitEnd()];
    assert TotalAdjustment(pair[1..]) == -1;
  }

  /**
    The corrected `forEach` with its `end` is neutral, and the body between
    them is replayed one level deeper than the `for` header.
   */
  lemma ForEachBalancedNeutral(collection: string, iteratorVar: string, body: seq<Node>, baseline: nat)
    requires WellFormedAll(body)
    ensures Run([EmitForEachBalanced(collection, iteratorVar)], baseline) == Some(baseline + 1)
    ensures Run([EmitForEachBalanced(collection, iteratorVar)] + LayoutAll(body) + [EmitEnd()], baseline) == Some(baseline)
  {
    LayoutReturnsToBaseline(ForEachLoop(collection, iteratorVar, body), baseline);
  }
}
