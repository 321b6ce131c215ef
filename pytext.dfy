/** The two pieces of Python string behaviour the trait predictor relies on:
    the substring test `t in s` and the rendering `str(list)` of a list of
    strings inside an f-string. */
module PyText {

  /** Python's `t in s` on two strings: `t` occurs somewhere inside `s`. */
  predicate Contains(s: string, t: string)
    decreases |s|
  {
    t <= s || (|s| > 0 && Contains(s[1..], t))
  }

  /** A string that starts with `t` contains `t`. */
  lemma PrefixContained(s: string, t: string)
    requires t <= s
    ensures Contains(s, t)
  {
  }

  /** A non-empty `t` whose first character never occurs in `s` is not inside `s`. */
  lemma {:induction false} AbsentHeadNotContained(s: string, t: string)
    requires |t| > 0 && t[0] !in s
    ensures !Contains(s, t)
    decreases |s|
  {
    if |s| > 0 {
      assert t[0] !in s[1..] by {
        forall i | 0 <= i < |s| - 1 ensures s[1..][i] == s[i + 1] { }
      }
      AbsentHeadNotContained(s[1..], t);
    }
  }

  /** Python's `repr` of a string made of printable characters other than quotes
      and backslashes: the string between single quotes. */
  function Repr(s: string): string
  {
    "'" + s + "'"
  }

  /** The items of a list, each rendered by `Repr`, separated by ", ". */
  function JoinReprs(xs: seq<string>): string
  {
    if |xs| == 0 then ""
    else if |xs| == 1 then Repr(xs[0])
    else Repr(xs[0]) + ", " + JoinReprs(xs[1..])
  }

  /** Python's `str(xs)` for a list of plain strings, e.g. `['BB', 'Bb', 'bb']`. */
  function ListRepr(xs: seq<string>): (r: string)
    ensures |r| >= 2 && r[0] == '[' && r[|r| - 1] == ']'
  {
    "[" + JoinReprs(xs) + "]"
  }
}
