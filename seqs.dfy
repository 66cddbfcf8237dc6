/**
 * Concatenation of nested sequences, the shape of JavaScript's
 * `flatMap` over the campaign list: the blocks are laid out one after
 * another, each block in its own order.
 */
module Seqs {

  /** The blocks of `ss` one after another. */
  function Flatten<T>(ss: seq<seq<T>>): seq<T>
  {
    if ss == [] then [] else Flatten(ss[..|ss| - 1]) + ss[|ss| - 1]
  }

  /** The sum of the lengths of the blocks. */
  function TotalLength<T>(ss: seq<seq<T>>): nat
  {
    if ss == [] then 0 else TotalLength(ss[..|ss| - 1]) + |ss[|ss| - 1]|
  }

  lemma FlattenSnoc<T>(ss: seq<seq<T>>, s: seq<T>)
    ensures Flatten(ss + [s]) == Flatten(ss) + s
    ensures TotalLength(ss + [s]) == TotalLength(ss) + |s|
  {
    assert (ss + [s])[..|ss|] == ss;
  }

  /** Flattening loses and adds nothing: its length is the total block length. */
  lemma {:induction false} FlattenLength<T>(ss: seq<seq<T>>)
    ensures |Flatten(ss)| == TotalLength(ss)
  {
    if ss != [] {
      FlattenLength(ss[..|ss| - 1]);
    }
  }

  /** Flattening distributes over concatenation of the block lists. */
  lemma {:induction false} FlattenAppend<T>(a: seq<seq<T>>, b: seq<seq<T>>)
    ensures Flatten(a + b) == Flatten(a) + Flatten(b)
    decreases |b|
  {
    if b == [] {
      assert a + b == a;
    } else {
      var front := b[..|b| - 1];
      assert a + b == (a + front) + [b[|b| - 1]];
      assert b == front + [b[|b| - 1]];
      FlattenSnoc(a + front, b[|b| - 1]);
      FlattenSnoc(front, b[|b| - 1]);
      FlattenAppend(a, front);
    }
  }

  /**
   * Block-then-element order: element `j` of block `i` sits at position
   * (total length of the blocks before `i`) + `j` of the flattening.
   */
  lemma FlattenAt<T>(ss: seq<seq<T>>, i: int, j: int)
    requires 0 <= i < |ss| && 0 <= j < |ss[i]|
    ensures TotalLength(ss[..i]) + j < TotalLength(ss) == |Flatten(ss)|
    ensures Flatten(ss)[TotalLength(ss[..i]) + j] == ss[i][j]
  {
    var before, after := ss[..i], ss[i + 1..];
    assert ss == before + ([ss[i]] + after);
    FlattenAppend(before, [ss[i]] + after);
    FlattenAppend([ss[i]], after);
    assert [ss[i]] == [] + [ss[i]];
    FlattenSnoc([], ss[i]);
    FlattenLength(before);
    FlattenLength(ss);
  }

  /** An element is in the flattening exactly when it is in one of the blocks. */
  lemma {:induction false} FlattenMember<T>(ss: seq<seq<T>>, x: T)
    ensures x in Flatten(ss) <==> exists i :: 0 <= i < |ss| && x in ss[i]
  {
    if ss != [] {
      var front := ss[..|ss| - 1];
      FlattenMember(front, x);
      assert forall i :: 0 <= i < |front| ==> front[i] == ss[i];
      if x in Flatten(ss) && x !in ss[|ss| - 1] {
        var i :| 0 <= i < |front| && x in front[i];
        assert x in ss[i];
      }
    }
  }

  /** The total length is zero exactly when every block is empty. */
  lemma {:induction false} TotalLengthZero<T>(ss: seq<seq<T>>)
    ensures TotalLength(ss) == 0 <==> forall i :: 0 <= i < |ss| ==> ss[i] == []
  {
    if ss != [] {
      var front := ss[..|ss| - 1];
      TotalLengthZero(front);
      assert forall i :: 0 <= i < |front| ==> front[i] == ss[i];
    }
  }
}
