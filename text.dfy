/** Text as the report is built from it: lines joined with newlines, read
    back by splitting, and where a piece of text occurs in a larger one. */
module Text {

  /** Lines written out one after another, each ended by a newline. */
  function Join(ls: seq<string>): (s: string) {
    if ls == [] then "" else ls[0] + "\n" + Join(ls[1..])
  }

  /** No newline inside a piece of text. */
  predicate SingleLine(s: string) {
    '\n' !in s
  }

  /** Text that fits on one line. */
  type Line = s: string | SingleLine(s) witness ""

  /** Position of the first newline of `s`, or `|s|` when there is none. */
  function NewlineIndex(s: string): (i: nat)
    ensures i <= |s|
    ensures i < |s| ==> s[i] == '\n'
    ensures forall k :: 0 <= k < i ==> s[k] != '\n'
  {
    if s == [] || s[0] == '\n' then 0 else 1 + NewlineIndex(s[1..])
  }

  /** The lines of a text, a final line without its newline included. */
  function SplitLines(s: string): (ls: seq<string>)
    decreases |s|
  {
    if s == [] then []
    else
      var i := NewlineIndex(s);
      if i == |s| then [s] else [s[..i]] + SplitLines(s[i + 1..])
  }

  /** Splitting undoes joining, as long as no line holds a newline. */
  lemma {:induction false} SplitJoin(ls: seq<string>)
    requires forall k :: 0 <= k < |ls| ==> SingleLine(ls[k])
    ensures SplitLines(Join(ls)) == ls
  {
    if ls != [] {
      var s := Join(ls);
      var rest := Join(ls[1..]);
      assert s == ls[0] + "\n" + rest;
      var i := NewlineIndex(s);
      assert s[|ls[0]|] == '\n';
      assert forall k :: 0 <= k < |ls[0]| ==> s[k] == ls[0][k];
      assert i == |ls[0]|;
      assert s[..i] == ls[0];
      assert s[i + 1..] == rest;
      SplitJoin(ls[1..]);
      assert [ls[0]] + ls[1..] == ls;
    }
  }

  /** `t` occurs in `s` starting at position `i`. */
  predicate OccursAt(s: string, t: string, i: int) {
    0 <= i && i + |t| <= |s| && s[i..i + |t|] == t
  }

  /** `t` is a substring of `s`. */
  predicate Contains(s: string, t: string) {
    exists i | 0 <= i <= |s| :: OccursAt(s, t, i)
  }

  /** Whatever stands before and after, the middle piece occurs right after
      the prefix. */
  lemma {:induction false} OccursAfterPrefix(a: string, t: string, b: string)
    ensures OccursAt(a + t + b, t, |a|)
    ensures Contains(a + t + b, t)
  {
    assert (a + t + b)[|a|..|a| + |t|] == t;
    assert OccursAt(a + t + b, t, |a|);
  }

  /** An occurrence inside an occurrence is an occurrence in the whole text. */
  lemma {:induction false} OccursInside(s: string, t: string, u: string, i: int, j: int)
    requires OccursAt(s, t, i) && OccursAt(t, u, j)
    ensures OccursAt(s, u, i + j)
  {
    forall m | 0 <= m < |u|
      ensures s[i + j..i + j + |u|][m] == u[m]
    {
      assert u[m] == t[j + m] == s[i + j + m];
    }
  }

  /** A substring of a substring is a substring. */
  lemma {:induction false} ContainsTransitive(s: string, t: string, u: string)
    requires Contains(s, t) && Contains(t, u)
    ensures Contains(s, u)
  {
    var i :| 0 <= i <= |s| && OccursAt(s, t, i);
    var j :| 0 <= j <= |t| && OccursAt(t, u, j);
    OccursInside(s, t, u, i, j);
  }

  /** Where line `k` starts in `Join(ls)`. */
  function Offset(ls: seq<string>, k: nat): (i: nat)
    requires k <= |ls|
  {
    if k == 0 then 0 else |ls[0]| + 1 + Offset(ls[1..], k - 1)
  }

  /** Line `k`, with its newline, stands at `Offset(ls, k)`, and the next
      line starts right after it. */
  lemma {:induction false} JoinLineAt(ls: seq<string>, k: nat)
    requires k < |ls|
    ensures OccursAt(Join(ls), ls[k] + "\n", Offset(ls, k))
    ensures Offset(ls, k + 1) == Offset(ls, k) + |ls[k]| + 1
  {
    var rest := Join(ls[1..]);
    assert Join(ls) == ls[0] + "\n" + rest;
    if k == 0 {
      OccursAfterPrefix("", ls[0] + "\n", rest);
      assert "" + (ls[0] + "\n") + rest == Join(ls);
    } else {
      JoinLineAt(ls[1..], k - 1);
      OccursAfterPrefix(ls[0] + "\n", rest, "");
      assert ls[0] + "\n" + rest + "" == Join(ls);
      OccursInside(Join(ls), rest, ls[k] + "\n", |ls[0]| + 1, Offset(ls[1..], k - 1));
    }
  }

  /** Later lines start further on. */
  lemma {:induction false} OffsetIncreasing(ls: seq<string>, j: nat, k: nat)
    requires j < k <= |ls|
    ensures Offset(ls, j) < Offset(ls, k)
  {
    if j > 0 {
      OffsetIncreasing(ls[1..], j - 1, k - 1);
    }
  }

  /** After a prefix `p`, line `k` of the joined lines stands at
      `|p| + Offset(ls, k)`, with and without its newline. */
  lemma {:induction false} LineAfterPrefix(p: string, ls: seq<string>, k: nat)
    requires k < |ls|
    ensures OccursAt(p + Join(ls), ls[k] + "\n", |p| + Offset(ls, k))
    ensures OccursAt(p + Join(ls), ls[k], |p| + Offset(ls, k))
  {
    var s := p + Join(ls);
    JoinLineAt(ls, k);
    OccursAfterPrefix(p, Join(ls), "");
    assert p + Join(ls) + "" == s;
    OccursInside(s, Join(ls), ls[k] + "\n", |p|, Offset(ls, k));
    OccursAfterPrefix("", ls[k], "\n");
    assert "" + ls[k] + "\n" == ls[k] + "\n";
    OccursInside(s, ls[k] + "\n", ls[k], |p| + Offset(ls, k), 0);
  }

  /** A piece of one of the lines is a piece of the text. */
  lemma {:induction false} PieceAfterPrefix(p: string, ls: seq<string>, k: nat,
                                            before: string, piece: string, after: string)
    requires k < |ls| && ls[k] == before + piece + after
    ensures Contains(p + Join(ls), piece)
  {
    var s := p + Join(ls);
    LineAfterPrefix(p, ls, k);
    assert OccursAt(s, ls[k], |p| + Offset(ls, k));
    OccursAfterPrefix(before, piece, after);
    ContainsTransitive(s, ls[k], piece);
  }

  /** Four lines taken in order occur in that order in the text, at the
      positions returned. */
  lemma {:induction false} LinesInOrder(p: string, ls: seq<string>, a: nat, b: nat, c: nat, d: nat,
                                        ta: string, tb: string, tc: string, td: string)
    returns (i: nat, j: nat, k: nat, l: nat)
    requires a < b < c < d < |ls|
    requires ls[a] == ta && ls[b] == tb && ls[c] == tc && ls[d] == td
    ensures i < j < k < l <= |p + Join(ls)|
    ensures OccursAt(p + Join(ls), ta, i) && OccursAt(p + Join(ls), tb, j)
    ensures OccursAt(p + Join(ls), tc, k) && OccursAt(p + Join(ls), td, l)
  {
    LineAfterPrefix(p, ls, a);
    LineAfterPrefix(p, ls, b);
    LineAfterPrefix(p, ls, c);
    LineAfterPrefix(p, ls, d);
    OffsetIncreasing(ls, a, b);
    OffsetIncreasing(ls, b, c);
    OffsetIncreasing(ls, c, d);
    i, j, k, l := |p| + Offset(ls, a), |p| + Offset(ls, b), |p| + Offset(ls, c), |p| + Offset(ls, d);
  }
}
