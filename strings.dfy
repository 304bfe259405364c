/**
 * JavaScript's `String.prototype.split` with a one-character separator, and
 * `Array.prototype.join`, which undoes it. Strings are sequences of characters.
 */
module Strings {

  /** Position of the first occurrence of `c` in `s`. */
  function IndexOf(s: string, c: char): (i: nat)
    requires c in s
    ensures i < |s| && s[i] == c
    ensures c !in s[..i]
  {
    if s[0] == c then 0
    else
      var j := IndexOf(s[1..], c);
      assert s[..j + 1] == [s[0]] + s[1..][..j];
      1 + j
  }

  /** The first occurrence of `c` in `p + [c] + q` is right after `p` when `p` holds no `c`. */
  lemma IndexOfAfterPrefix(p: string, c: char, q: string)
    requires c !in p
    ensures c in p + [c] + q
    ensures IndexOf(p + [c] + q, c) == |p|
  {
    assert (p + [c] + q)[|p|] == c;
  }

  /** `pieces` with `sep` written between each pair of neighbours; no pieces join to "". */
  function Join(pieces: seq<string>, sep: char): string
  {
    if |pieces| == 0 then ""
    else if |pieces| == 1 then pieces[0]
    else pieces[0] + [sep] + Join(pieces[1..], sep)
  }

  lemma JoinThree(x: string, y: string, z: string, sep: char)
    ensures Join([x, y, z], sep) == x + [sep] + y + [sep] + z
  {
    var pieces := [x, y, z];
    assert pieces[1..] == [y, z];
    assert pieces[1..][1..] == [z];
    assert Join([z], sep) == z;
    assert Join([y, z], sep) == y + [sep] + z;
  }

  /**
   * `s.split(sep)`: the maximal runs of `s` between occurrences of `sep`.
   * There is always at least one piece (the empty string splits into `[""]`),
   * no piece holds the separator, and joining the pieces gives `s` back.
   */
  function Split(s: string, sep: char): (pieces: seq<string>)
    ensures |pieces| >= 1
    ensures forall k :: 0 <= k < |pieces| ==> sep !in pieces[k]
    ensures Join(pieces, sep) == s
    decreases |s|
  {
    if sep in s then
      var i := IndexOf(s, sep);
      var rest := Split(s[i + 1..], sep);
      var pieces := [s[..i]] + rest;
      assert pieces[1..] == rest;
      assert s == s[..i] + [sep] + s[i + 1..];
      pieces
    else
      [s]
  }

  /** Splitting at a first separator right after `p` yields `p` and the pieces of the rest. */
  lemma SplitAfterPrefix(p: string, sep: char, q: string)
    requires sep !in p
    ensures Split(p + [sep] + q, sep) == [p] + Split(q, sep)
  {
    var s := p + [sep] + q;
    IndexOfAfterPrefix(p, sep, q);
    assert s[..|p|] == p;
    assert s[|p| + 1..] == q;
  }

  /** Splitting is the inverse of joining pieces that do not hold the separator. */
  lemma {:induction false} SplitJoin(pieces: seq<string>, sep: char)
    requires |pieces| >= 1
    requires forall k :: 0 <= k < |pieces| ==> sep !in pieces[k]
    ensures Split(Join(pieces, sep), sep) == pieces
    decreases |pieces|
  {
    if |pieces| > 1 {
      var rest := pieces[1..];
      assert forall k :: 0 <= k < |rest| ==> sep !in rest[k] by {
        forall k | 0 <= k < |rest| ensures sep !in rest[k] {
          assert rest[k] == pieces[k + 1];
        }
      }
      SplitJoin(rest, sep);
      assert sep !in pieces[0];
      SplitAfterPrefix(pieces[0], sep, Join(rest, sep));
      assert pieces == [pieces[0]] + rest;
    } else {
      assert sep !in pieces[0];
    }
  }
}
