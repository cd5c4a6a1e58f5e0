/**
  What an emitter returns. A plain statement string, or a block of statements
  at levels relative to the current baseline together with the two level
  adjustments and the flag that suppresses the block's text. The host that
  assembles a method body keeps the baseline; `Run` replays its bookkeeping.
 */
module Fragments {
  import opened Wrappers

  /** One emitted line: its level relative to the baseline, and its text. */
  datatype Statement = Statement(level: nat, text: string)

  datatype Fragment =
    | Line(text: string)
    | Block(commands: seq<Statement>, startingLevelAdjustment: int, endingLevelAdjustment: int, skipEmitting: bool)
  {
    /** The shift applied before this fragment's own statements are placed; an absent field is 0. */
    function StartAdjustment(): int
    {
      if Block? then startingLevelAdjustment else 0
    }

    /** The shift that persists into the following fragments; an absent field is 0. */
    function EndAdjustment(): int
    {
      if Block? then endingLevelAdjustment else 0
    }

    /** A fragment that leaves the baseline where it found it. */
    predicate Neutral()
    {
      StartAdjustment() == 0 && EndAdjustment() == 0
    }
  }

  /** A block of level-0 statements with no adjustments, as `{ commands }` in the source. */
  function Statements(texts: seq<string>): (f: Fragment)
    ensures f.Block? && f.Neutral() && !f.skipEmitting
    ensures |f.commands| == |texts|
    ensures forall i :: 0 <= i < |texts| ==> f.commands[i] == Statement(0, texts[i])
  {
    Block(seq(|texts|, i requires 0 <= i < |texts| => Statement(0, texts[i])), 0, 0, false)
  }

  /** Sum of both adjustments over a sequence of fragments. */
  function TotalAdjustment(fs: seq<Fragment>): int
    decreases |fs|
  {
    if |fs| == 0 then 0
    else fs[0].StartAdjustment() + fs[0].EndAdjustment() + TotalAdjustment(fs[1..])
  }

  /**
    The host's baseline bookkeeping, starting at `baseline`: each fragment is
    placed at the baseline shifted by its starting adjustment, and the next one
    starts from there shifted by its ending adjustment. `None` when a level would
    become negative.
   */
  function Run(fs: seq<Fragment>, baseline: int): Option<int>
    decreases |fs|
  {
    if |fs| == 0 then Some(baseline)
    else
      var placed := baseline + fs[0].StartAdjustment();
      var next := placed + fs[0].EndAdjustment();
      if placed < 0 || next < 0 then None else Run(fs[1..], next)
  }

  /** Replaying a concatenation is replaying its halves one after the other. */
  lemma {:induction false} RunAppend(a: seq<Fragment>, b: seq<Fragment>, baseline: int)
    ensures Run(a + b, baseline) == match Run(a, baseline) case None => None case Some(e) => Run(b, e)
    decreases |a|
  {
    if |a| == 0 {
      assert a + b == b;
    } else {
      assert (a + b)[0] == a[0];
      assert (a + b)[1..] == a[1..] + b;
      var next := baseline + a[0].StartAdjustment() + a[0].EndAdjustment();
      RunAppend(a[1..], b, next);
    }
  }

  /** Replaying one fragment places it and then applies its ending adjustment. */
  lemma RunOne(f: Fragment, baseline: int)
    ensures Run([f], baseline) ==
      var placed := baseline + f.StartAdjustment();
      var next := placed + f.EndAdjustment();
      if placed < 0 || next < 0 then None else Some(next)
  {
    assert [f][1..] == [];
  }

  /** When the replay succeeds, it ends at the baseline shifted by the total adjustment. */
  lemma {:induction false} RunTotal(fs: seq<Fragment>, baseline: int)
    requires Run(fs, baseline).Some?
    ensures Run(fs, baseline).value == baseline + TotalAdjustment(fs)
    decreases |fs|
  {
    if |fs| > 0 {
      RunTotal(fs[1..], baseline + fs[0].StartAdjustment() + fs[0].EndAdjustment());
    }
  }
}
