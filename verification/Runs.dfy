/** Pieces of runs, put together: for machines whose steps are any function of state and action. */
module Runs {
  function Fold<S, A>(step: (S, A) -> S, s: S, acts: seq<A>): S
    decreases |acts|
  {
    if acts == [] then s else Fold(step, step(s, acts[0]), acts[1..])
  }

  /** The costs of the steps of a run, added up. */
  function Tally<S, A>(step: (S, A) -> S, cost: (S, A) -> nat, s: S, acts: seq<A>): nat
    decreases |acts|
  {
    if acts == [] then 0 else cost(s, acts[0]) + Tally(step, cost, step(s, acts[0]), acts[1..])
  }

  /** The actions lead from one state to the other at a total cost of `n`. */
  ghost predicate Leads<S(!new), A(!new)>(step: (S, A) -> S, cost: (S, A) -> nat, s: S, acts: seq<A>, t: S, n: nat) {
    Fold(step, s, acts) == t && Tally(step, cost, s, acts) == n
  }

  lemma Single<S(!new), A(!new)>(step: (S, A) -> S, cost: (S, A) -> nat, s: S, a: A)
    ensures Leads(step, cost, s, [a], step(s, a), cost(s, a))
  {
    assert [a][1..] == [];
  }

  lemma {:induction false} Chain<S(!new), A(!new)>(step: (S, A) -> S, cost: (S, A) -> nat, s: S, xs: seq<A>, t: S, m: nat,
                                                   ys: seq<A>, u: S, n: nat)
    requires Leads(step, cost, s, xs, t, m) && Leads(step, cost, t, ys, u, n)
    ensures Leads(step, cost, s, xs + ys, u, m + n)
    decreases |xs|
  {
    if xs == [] {
      assert xs + ys == ys;
    } else {
      assert (xs + ys)[1..] == xs[1..] + ys;
      Chain(step, cost, step(s, xs[0]), xs[1..], t, Tally(step, cost, step(s, xs[0]), xs[1..]), ys, u, n);
    }
  }

  /** The stretches `acts(k)`, `acts(k + 1)`, ... of a run, `n` of them. */
  function Stretches<A>(acts: nat -> seq<A>, k: nat, n: nat): seq<A>
    decreases n
  {
    if n == 0 then [] else acts(k) + Stretches(acts, k + 1, n - 1)
  }
}
