/** Sequences built by appending one piece per element, and where a sequence
    occurs inside another. Both renderers are made of these two notions: the
    markdown text appends strings, the document appends paragraphs. */
module Sequences {

  /** The pieces `piece(x)` of the elements `x` of `xs`, concatenated in order. */
  function Join<T, U>(xs: seq<T>, piece: T -> seq<U>): seq<U> {
    if xs == [] then [] else piece(xs[0]) + Join(xs[1..], piece)
  }

  lemma JoinSingle<T, U>(x: T, piece: T -> seq<U>)
    ensures Join([x], piece) == piece(x)
  {
    assert [x][1..] == [];
  }

  /** Appending an element appends exactly its piece, so a loop that appends
      pieces element by element builds `Join`. */
  lemma {:induction false} JoinAppend<T, U>(xs: seq<T>, x: T, piece: T -> seq<U>)
    ensures Join(xs + [x], piece) == Join(xs, piece) + piece(x)
  {
    if xs == [] {
      assert [x][1..] == [];
    } else {
      assert (xs + [x])[1..] == xs[1..] + [x];
      JoinAppend(xs[1..], x, piece);
    }
  }

  /** The i-th piece sits right after the pieces of the elements before it
      and right before those of the elements after it. */
  lemma {:induction false} JoinSplit<T, U>(xs: seq<T>, i: nat, piece: T -> seq<U>)
    requires i < |xs|
    ensures Join(xs, piece) == Join(xs[..i], piece) + piece(xs[i]) + Join(xs[i + 1..], piece)
  {
    if i == 0 {
      assert xs[..0] == [];
    } else {
      JoinSplit(xs[1..], i - 1, piece);
      assert xs[1..][..i - 1] == xs[1..i];
      assert xs[1..][i - 1] == xs[i];
      assert xs[1..][i..] == xs[i + 1..];
      assert xs[..i][1..] == xs[1..i];
    }
  }

  /** Joining two sequences one after the other is joining each of them. */
  lemma {:induction false} JoinConcat<T, U>(xs: seq<T>, ys: seq<T>, piece: T -> seq<U>)
    ensures Join(xs + ys, piece) == Join(xs, piece) + Join(ys, piece)
  {
    if xs == [] {
      assert xs + ys == ys;
    } else {
      assert (xs + ys)[1..] == xs[1..] + ys;
      JoinConcat(xs[1..], ys, piece);
    }
  }

  /** The last element's piece ends the joined sequence. */
  lemma JoinLast<T, U>(xs: seq<T>, piece: T -> seq<U>)
    requires xs != []
    ensures Join(xs, piece) == Join(xs[..|xs| - 1], piece) + piece(xs[|xs| - 1])
  {
    assert xs == xs[..|xs| - 1] + [xs[|xs| - 1]];
    JoinAppend(xs[..|xs| - 1], xs[|xs| - 1], piece);
  }

  lemma AppendAssociative<U>(a: seq<U>, b: seq<U>, c: seq<U>)
    ensures a + b + c == a + (b + c)
  {
  }

  lemma AppendEmpty<U>(a: seq<U>)
    ensures [] + a == a && a + [] == a
  {
  }

  lemma AppendThree<U>(s: seq<U>, a: U, b: U, c: U)
    ensures s + [a] + [b] + [c] == s + [a, b, c]
  {
  }

  predicate OccursAt<U(==)>(x: seq<U>, t: seq<U>, k: int) {
    0 <= k && k + |x| <= |t| && t[k..k + |x|] == x
  }

  /** `x` is a contiguous part of `t`. */
  ghost predicate Occurs<U>(x: seq<U>, t: seq<U>) {
    exists k :: OccursAt(x, t, k)
  }

  /** `t` ends with `x`. */
  predicate EndsWith<U(==)>(t: seq<U>, x: seq<U>) {
    |x| <= |t| && t[|t| - |x|..] == x
  }

  lemma OccursSelf<U>(x: seq<U>)
    ensures Occurs(x, x)
  {
    assert OccursAt(x, x, 0);
  }

  lemma OccursLeft<U>(x: seq<U>, a: seq<U>, b: seq<U>)
    requires Occurs(x, a)
    ensures Occurs(x, a + b)
  {
    var k :| OccursAt(x, a, k);
    assert (a + b)[k..k + |x|] == a[k..k + |x|];
    assert OccursAt(x, a + b, k);
  }

  lemma OccursRight<U>(x: seq<U>, a: seq<U>, b: seq<U>)
    requires Occurs(x, b)
    ensures Occurs(x, a + b)
  {
    var k :| OccursAt(x, b, k);
    assert (a + b)[|a| + k..|a| + k + |x|] == b[k..k + |x|];
    assert OccursAt(x, a + b, |a| + k);
  }

  /** Whatever occurs in one element's piece occurs in the joined text. */
  lemma JoinMentions<T, U>(xs: seq<T>, i: nat, piece: T -> seq<U>, x: seq<U>)
    requires i < |xs| && Occurs(x, piece(xs[i]))
    ensures Occurs(x, Join(xs, piece))
  {
    JoinSplit(xs, i, piece);
    OccursRight(x, Join(xs[..i], piece), piece(xs[i]));
    OccursLeft(x, Join(xs[..i], piece) + piece(xs[i]), Join(xs[i + 1..], piece));
  }

  lemma EndsWithAppend<U>(t: seq<U>, x: seq<U>)
    ensures EndsWith(t + x, x)
  {
    assert (t + x)[|t|..] == x;
  }
}
