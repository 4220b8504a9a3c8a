/** Transition systems, and the runs that take them from one state to another. */
module Runs {

  /** Which steps a state allows, and where each of them leads. */
  datatype Machine<!S, !X> = Machine(can: (S, X) -> bool, next: (S, X) -> S)

  /** `steps`, taken one after the other, lead from `s` to `t`. */
  ghost predicate Run<S, X>(m: Machine<S, X>, s: S, steps: seq<X>, t: S)
    decreases |steps|
  {
    if steps == [] then s == t else m.can(s, steps[0]) && Run(m, m.next(s, steps[0]), steps[1..], t)
  }

  lemma OneStep<S, X>(m: Machine<S, X>, s: S, x: X, t: S)
    requires m.can(s, x) && m.next(s, x) == t
    ensures Run(m, s, [x], t)
  {
    assert [x][1..] == [];
  }

  lemma {:induction false} RunsJoin<S, X>(m: Machine<S, X>, s: S, a: seq<X>, t: S, b: seq<X>, u: S)
    requires Run(m, s, a, t) && Run(m, t, b, u)
    ensures Run(m, s, a + b, u)
    decreases |a|
  {
    if a == [] {
      assert a + b == b;
    } else {
      assert (a + b)[0] == a[0] && (a + b)[1..] == a[1..] + b;
      RunsJoin(m, m.next(s, a[0]), a[1..], t, b, u);
    }
  }

  lemma OneMore<S, X>(m: Machine<S, X>, s: S, steps: seq<X>, t: S, x: X, u: S)
    requires Run(m, s, steps, t) && m.can(t, x) && m.next(t, x) == u
    ensures Run(m, s, steps + [x], u)
  {
    OneStep(m, t, x, u);
    RunsJoin(m, s, steps, t, [x], u);
  }
}
