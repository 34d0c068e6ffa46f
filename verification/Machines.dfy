/** Labelled transition systems. Nondeterminism is in the labels: a label names the goroutine that moves
    and every choice its environment makes for it, so `next` is a function.
 */
module Machines {

  datatype Option<+T> = None | Some(value: T)

  datatype Machine<!S(!new), !L(!new)> = Machine(enabled: (S, L) -> bool, next: (S, L) -> S) {

    /** The labels, taken in order from `s`, are each enabled and end in `t`. */
    ghost predicate Runs(s: S, labels: seq<L>, t: S) {
      if labels == [] then s == t
      else enabled(s, labels[0]) && Runs(next(s, labels[0]), labels[1..], t)
    }

    ghost predicate Reaches(s: S, t: S) {
      exists labels :: Runs(s, labels, t)
    }

    /** `inv` survives every enabled step. */
    ghost predicate Preserves(inv: S -> bool) {
      forall s, l :: inv(s) && enabled(s, l) ==> inv(next(s, l))
    }

    lemma {:induction false} Invariance(inv: S -> bool, s: S, labels: seq<L>, t: S)
      requires Preserves(inv)
      requires inv(s) && Runs(s, labels, t)
      ensures inv(t)
      decreases |labels|
    {
      if labels != [] {
        Invariance(inv, next(s, labels[0]), labels[1..], t);
      }
    }

    lemma Invariant(inv: S -> bool, s: S, t: S)
      requires Preserves(inv)
      requires inv(s) && Reaches(s, t)
      ensures inv(t)
    {
      var labels :| Runs(s, labels, t);
      Invariance(inv, s, labels, t);
    }

    lemma {:induction false} Concat(s: S, first: seq<L>, t: S, second: seq<L>, u: S)
      requires Runs(s, first, t) && Runs(t, second, u)
      ensures Runs(s, first + second, u)
      decreases |first|
    {
      if first == [] {
        assert first + second == second;
      } else {
        Concat(next(s, first[0]), first[1..], t, second, u);
        assert (first + second)[1..] == first[1..] + second;
      }
    }

    lemma Stay(s: S)
      ensures Reaches(s, s)
    {
      assert Runs(s, [], s);
    }

    lemma One(s: S, l: L)
      requires enabled(s, l)
      ensures Reaches(s, next(s, l))
    {
      assert [l][1..] == [];
      assert Runs(next(s, l), [], next(s, l));
      assert Runs(s, [l], next(s, l));
    }

    /** One more step at the end of a run. */
    lemma Then(s: S, labels: seq<L>, t: S, l: L)
      requires Runs(s, labels, t) && enabled(t, l)
      ensures Runs(s, labels + [l], next(t, l))
    {
      assert [l][1..] == [];
      assert Runs(next(t, l), [], next(t, l));
      assert Runs(t, [l], next(t, l));
      Concat(s, labels, t, [l], next(t, l));
    }

    /** The last step of a run. */
    lemma {:induction false} Last(s: S, labels: seq<L>, t: S) returns (u: S)
      requires labels != [] && Runs(s, labels, t)
      ensures Runs(s, labels[..|labels| - 1], u) && enabled(u, labels[|labels| - 1])
      ensures t == next(u, labels[|labels| - 1])
      decreases |labels|
    {
      if |labels| == 1 {
        u := s;
        assert Runs(next(s, labels[0]), labels[1..], t);
      } else {
        u := Last(next(s, labels[0]), labels[1..], t);
        assert labels[1..][..|labels| - 2] == labels[..|labels| - 1][1..];
      }
    }

    lemma Compose(s: S, t: S, u: S)
      requires Reaches(s, t) && Reaches(t, u)
      ensures Reaches(s, u)
    {
      var first :| Runs(s, first, t);
      var second :| Runs(t, second, u);
      Concat(s, first, t, second, u);
    }
  }
}
