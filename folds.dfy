/**
 * The loops the parsers are written as: one pass over the lines of a
 * command's output, each line updating the loop's state. `Fold` is a loop
 * whose body may raise (the first exception ends it); `Iterate` is one whose
 * body cannot. The lemmas here say how such loops split and compose, for any
 * loop body.
 */
module Folds {
  import opened Wrappers

  /** The loop run over `lines` from `st`; the first error ends it. */
  function Fold<S, E>(step: (S, string) -> Result<S, E>, st: S, lines: seq<string>): Result<S, E>
    decreases |lines|
  {
    if lines == [] then Ok(st)
    else
      var prefix := Fold(step, st, lines[..|lines| - 1]);
      if prefix.Err? then prefix else step(prefix.value, lines[|lines| - 1])
  }

  lemma FoldSnoc<S, E>(step: (S, string) -> Result<S, E>, st: S, lines: seq<string>, line: string)
    ensures Fold(step, st, lines + [line]) ==
      if Fold(step, st, lines).Err? then Fold(step, st, lines) else step(Fold(step, st, lines).value, line)
  {
    assert (lines + [line])[..|lines|] == lines;
  }

  /** Running `a` then `b` is running `a + b`, unless `a` already raised. */
  lemma {:induction false} FoldAppend<S, E>(step: (S, string) -> Result<S, E>, st: S, a: seq<string>, b: seq<string>)
    ensures Fold(step, st, a + b) ==
      if Fold(step, st, a).Err? then Fold(step, st, a) else Fold(step, Fold(step, st, a).value, b)
    decreases |b|
  {
    if b == [] {
      assert a + b == a;
    } else {
      var init, last := b[..|b| - 1], b[|b| - 1];
      assert a + b == (a + init) + [last];
      assert b == init + [last];
      FoldSnoc(step, st, a + init, last);
      FoldAppend(step, st, a, init);
      if Fold(step, st, a).Ok? {
        FoldSnoc(step, Fold(step, st, a).value, init, last);
      }
    }
  }

  /** The first line is handled first. */
  lemma FoldCons<S, E>(step: (S, string) -> Result<S, E>, st: S, line: string, rest: seq<string>)
    ensures Fold(step, st, [line] + rest) ==
      if step(st, line).Err? then step(st, line) else Fold(step, step(st, line).value, rest)
  {
    FoldAppend(step, st, [line], rest);
    FoldSnoc(step, st, [], line);
    assert [] + [line] == [line];
  }

  /** The loop over the first `i + 1` lines is the loop over the first `i` and one more step. */
  lemma FoldNext<S, E>(step: (S, string) -> Result<S, E>, st: S, lines: seq<string>, i: nat)
    requires i < |lines|
    ensures Fold(step, st, lines[..i + 1]) ==
      if Fold(step, st, lines[..i]).Err? then Fold(step, st, lines[..i]) else step(Fold(step, st, lines[..i]).value, lines[i])
  {
    assert lines[..i + 1][..i] == lines[..i];
  }

  /** Once the loop raises, the lines after it are never read. */
  lemma FoldErrorIsFinal<S, E>(step: (S, string) -> Result<S, E>, st: S, lines: seq<string>, k: nat)
    requires k <= |lines| && Fold(step, st, lines[..k]).Err?
    ensures Fold(step, st, lines) == Fold(step, st, lines[..k])
  {
    assert lines == lines[..k] + lines[k..];
    FoldAppend(step, st, lines[..k], lines[k..]);
  }

  /** A loop whose every step moves from one state of `states` to the next ends in the last one. */
  lemma {:induction false} FoldAlong<S, E>(step: (S, string) -> Result<S, E>, lines: seq<string>, states: seq<S>)
    requires |states| == |lines| + 1
    requires forall i :: 0 <= i < |lines| ==> step(states[i], lines[i]) == Ok(states[i + 1])
    ensures Fold(step, states[0], lines) == Ok(states[|lines|])
    decreases |lines|
  {
    if lines != [] {
      var n := |lines| - 1;
      FoldAlong(step, lines[..n], states[..n + 1]);
      assert step(states[n], lines[n]) == Ok(states[n + 1]);
    }
  }

  /**
   * An invariant of the lines read so far and the state that every step
   * keeps holds at the end, and an error raised from a state satisfying it
   * satisfies `fail`.
   */
  lemma {:induction false} FoldInvariant<S, E>(step: (S, string) -> Result<S, E>, st: S, lines: seq<string>,
                                               inv: (seq<string>, S) -> bool, fail: E -> bool)
    requires inv([], st)
    requires forall pre, s, line :: inv(pre, s) && step(s, line).Ok? ==> inv(pre + [line], step(s, line).value)
    requires forall pre, s, line :: inv(pre, s) && step(s, line).Err? ==> fail(step(s, line).error)
    ensures Fold(step, st, lines).Ok? ==> inv(lines, Fold(step, st, lines).value)
    ensures Fold(step, st, lines).Err? ==> fail(Fold(step, st, lines).error)
    decreases |lines|
  {
    if lines != [] {
      var init := lines[..|lines| - 1];
      var last := lines[|lines| - 1];
      FoldInvariant(step, st, init, inv, fail);
      assert init + [last] == lines;
      if Fold(step, st, init).Ok? {
        InvariantStep(step, init, Fold(step, st, init).value, last, inv, fail);
      }
    }
  }

  lemma InvariantStep<S, E>(step: (S, string) -> Result<S, E>, pre: seq<string>, s: S, line: string,
                            inv: (seq<string>, S) -> bool, fail: E -> bool)
    requires forall pre, s, line :: inv(pre, s) && step(s, line).Ok? ==> inv(pre + [line], step(s, line).value)
    requires forall pre, s, line :: inv(pre, s) && step(s, line).Err? ==> fail(step(s, line).error)
    requires inv(pre, s)
    ensures step(s, line).Ok? ==> inv(pre + [line], step(s, line).value)
    ensures step(s, line).Err? ==> fail(step(s, line).error)
  {
  }

  /** A loop whose body cannot raise. */
  function Iterate<S>(step: (S, string) -> S, st: S, lines: seq<string>): S
    decreases |lines|
  {
    if lines == [] then st else step(Iterate(step, st, lines[..|lines| - 1]), lines[|lines| - 1])
  }

  lemma IterateSnoc<S>(step: (S, string) -> S, st: S, lines: seq<string>, line: string)
    ensures Iterate(step, st, lines + [line]) == step(Iterate(step, st, lines), line)
  {
    assert (lines + [line])[..|lines|] == lines;
  }

  /** Running `a` then `b` is running `a + b`. */
  lemma {:induction false} IterateAppend<S>(step: (S, string) -> S, st: S, a: seq<string>, b: seq<string>)
    ensures Iterate(step, st, a + b) == Iterate(step, Iterate(step, st, a), b)
    decreases |b|
  {
    if b == [] {
      assert a + b == a;
    } else {
      var init, last := b[..|b| - 1], b[|b| - 1];
      assert a + b == (a + init) + [last];
      IterateSnoc(step, st, a + init, last);
      IterateAppend(step, st, a, init);
    }
  }

  /** A loop whose every step moves from one state of `states` to the next ends in the last one. */
  lemma {:induction false} IterateAlong<S>(step: (S, string) -> S, lines: seq<string>, states: seq<S>)
    requires |states| == |lines| + 1
    requires forall i :: 0 <= i < |lines| ==> step(states[i], lines[i]) == states[i + 1]
    ensures Iterate(step, states[0], lines) == states[|lines|]
    decreases |lines|
  {
    if lines != [] {
      var n := |lines| - 1;
      IterateAlong(step, lines[..n], states[..n + 1]);
      assert step(states[n], lines[n]) == states[n + 1];
    }
  }
}
