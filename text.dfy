/**
  String operations that the emitters borrow from JavaScript: prefix tests,
  `split`, `lastIndexOf`, `slice`, `join` and a first-letter capitalisation.
  Strings are sequences of characters; nothing here normalises or encodes.
 */
module Text {

  /** `s.startsWith(prefix)`, and the regular expression `^prefix`. */
  predicate StartsWith(s: string, prefix: string)
  {
    |prefix| <= |s| && s[..|prefix|] == prefix
  }

  /** Wraps `s` in double quotes, as the template `"${s}"` does (no escaping). */
  function Quote(s: string): string
  {
    "\"" + s + "\""
  }

  /** `xs.join(sep)`. */
  function Join(xs: seq<string>, sep: string): string
    decreases |xs|
  {
    if |xs| == 0 then ""
    else if |xs| == 1 then xs[0]
    else xs[0] + sep + Join(xs[1..], sep)
  }

  /** `xs.map(f)`. */
  function Map(f: string -> string, xs: seq<string>): (r: seq<string>)
    ensures |r| == |xs|
    ensures forall i :: 0 <= i < |xs| ==> r[i] == f(xs[i])
  {
    seq(|xs|, i requires 0 <= i < |xs| => f(xs[i]))
  }

  /** `s.split(c)` for a one-character separator. */
  function Split(s: string, c: char): (r: seq<string>)
    ensures |r| >= 1
    decreases |s|
  {
    if |s| == 0 then [""]
    else if s[0] == c then [""] + Split(s[1..], c)
    else
      var rest := Split(s[1..], c);
      [[s[0]] + rest[0]] + rest[1..]
  }

  /** True when `sep` occurs somewhere in `t`. */
  predicate Occurs(t: string, sep: string)
    decreases |t|
  {
    StartsWith(t, sep) || (|t| > 0 && Occurs(t[1..], sep))
  }

  /** The part of `t` before the first occurrence of `sep` (all of `t` if there is none). */
  function UpToFirst(t: string, sep: string): string
    requires |sep| > 0
    decreases |t|
  {
    if |t| == 0 || StartsWith(t, sep) then "" else [t[0]] + UpToFirst(t[1..], sep)
  }

  /**
    `s.split(sep)[1]` for an `s` that begins with `sep`: JavaScript finds the
    occurrence at the start, then the piece runs to the next occurrence.
   */
  function SecondPiece(s: string, sep: string): string
    requires |sep| > 0 && StartsWith(s, sep)
  {
    UpToFirst(s[|sep|..], sep)
  }

  /** `s.indexOf(c)`, with `|s|` standing for "not found". */
  function IndexOf(s: string, c: char): (r: nat)
    ensures r <= |s|
    ensures r < |s| ==> s[r] == c
    ensures forall j :: 0 <= j < r ==> s[j] != c
    decreases |s|
  {
    if |s| == 0 then 0
    else if s[0] == c then 0
    else 1 + IndexOf(s[1..], c)
  }

  /** `s.lastIndexOf(c)`: the last position of `c`, or -1. */
  function LastIndexOf(s: string, c: char): (r: int)
    ensures -1 <= r < |s|
    ensures r >= 0 ==> s[r] == c
    ensures forall j :: r < j < |s| ==> s[j] != c
    decreases |s|
  {
    if |s| == 0 then -1
    else if s[|s| - 1] == c then |s| - 1
    else LastIndexOf(s[..|s| - 1], c)
  }

  /** `s.slice(0, end)`, where a negative `end` counts back from the end of `s`. */
  function SliceTo(s: string, end: int): string
  {
    if end < 0 then s[..if |s| + end < 0 then 0 else |s| + end]
    else s[..if end < |s| then end else |s|]
  }

  /** `s.slice(start)` for a non-negative `start`. */
  function SliceFrom(s: string, start: nat): string
  {
    s[if start < |s| then start else |s|..]
  }

  /** Upper-cases the first letter of `s` when it is an ASCII lower-case letter. */
  function Capitalize(s: string): string
  {
    if |s| > 0 && 'a' <= s[0] <= 'z' then [(s[0] as int - 32) as char] + s[1..] else s
  }

  predicate IsDigit(c: char)
  {
    '0' <= c <= '9'
  }

  /** A non-empty run of decimal digits with no superfluous leading zero. */
  predicate CanonicalDigits(s: string)
  {
    |s| > 0 && (forall i :: 0 <= i < |s| ==> IsDigit(s[i])) && (s[0] == '0' ==> |s| == 1)
  }

  /** Joining and splitting on a character that none of the parts contains are inverse. */
  lemma {:induction false} SplitJoin(xs: seq<string>, c: char)
    requires |xs| > 0
    requires forall i :: 0 <= i < |xs| ==> c !in xs[i]
    ensures Split(Join(xs, [c]), c) == xs
    decreases |xs|
  {
    if |xs| == 1 {
      SplitWithout(xs[0], c);
    } else {
      SplitJoin(xs[1..], c);
      SplitAfter(xs[0], Join(xs[1..], [c]), c);
    }
  }

  /** A string without the separator splits into itself. */
  lemma {:induction false} SplitWithout(s: string, c: char)
    requires c !in s
    ensures Split(s, c) == [s]
    decreases |s|
  {
    if |s| > 0 {
      assert s[0] != c && c !in s[1..];
      SplitWithout(s[1..], c);
      assert [s[0]] + s[1..] == s;
    }
  }

  /** Splitting `a + c + b` peels `a` off the front when `a` has no separator. */
  lemma {:induction false} SplitAfter(a: string, b: string, c: char)
    requires c !in a
    ensures Split(a + [c] + b, c) == [a] + Split(b, c)
    decreases |a|
  {
    if |a| == 0 {
      assert a + [c] + b == [c] + b;
      assert ([c] + b)[1..] == b;
    } else {
      var t := a + [c] + b;
      assert t[0] == a[0] != c;
      assert t[1..] == a[1..] + [c] + b;
      SplitAfter(a[1..], b, c);
      var rest := Split(t[1..], c);
      assert rest == [a[1..]] + Split(b, c);
      assert [a[0]] + a[1..] == a;
    }
  }

  /** The piece before the first occurrence is the whole string when there is none. */
  lemma {:induction false} UpToFirstWithout(t: string, sep: string)
    requires |sep| > 0 && !Occurs(t, sep)
    ensures UpToFirst(t, sep) == t
    decreases |t|
  {
    if |t| > 0 {
      UpToFirstWithout(t[1..], sep);
    }
  }

  /** A separator cannot occur in a string that lacks its first character. */
  lemma {:induction false} NotOccursWithoutFirst(t: string, sep: string)
    requires |sep| > 0 && sep[0] !in t
    ensures !Occurs(t, sep)
    decreases |t|
  {
    if |t| > 0 {
      assert t[0] != sep[0];
      assert sep[0] !in t[1..] by {
        forall j | 0 <= j < |t[1..]| ensures t[1..][j] != sep[0] {
          assert t[1..][j] == t[j + 1];
        }
      }
      NotOccursWithoutFirst(t[1..], sep);
    }
  }

  /** Joining on `sep` appends one element after one separator. */
  lemma {:induction false} JoinSnoc(xs: seq<string>, y: string, sep: string)
    requires |xs| > 0
    ensures Join(xs + [y], sep) == Join(xs, sep) + sep + y
    decreases |xs|
  {
    if |xs| == 1 {
      assert (xs + [y])[1..] == [y];
    } else {
      assert (xs + [y])[1..] == xs[1..] + [y];
      JoinSnoc(xs[1..], y, sep);
    }
  }
}
