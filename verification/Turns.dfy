/** Atomic turns: whole reconciles, users' writes and restarts, one after the other. */
module Turns {
  import opened Api
  import opened Operator
  import opened Invariants
  import opened Safety
  import opened Atomic

  /** One turn: a reconcile of some object, a user's write or a restart of the process. */
  datatype Turn = Serve(kind: Kind, nn: NsName, env: Env) | Act(action: Action)

  function TakeTurn(st: State, t: Turn): State {
    match t
    case Serve(kind, nn, env) => Settle(Reconcile(st, kind, nn, env))
    case Act(a) => if ByUser(a) || a.Crash? then Apply(Sys(st, map[]), a).st else st
  }

  function TakeTurns(st: State, turns: seq<Turn>): State
    decreases |turns|
  {
    if turns == [] then st else TakeTurns(TakeTurn(st, turns[0]), turns[1..])
  }

  lemma {:induction false} TurnsAppend(st: State, a: seq<Turn>, b: seq<Turn>)
    ensures TakeTurns(st, a + b) == TakeTurns(TakeTurns(st, a), b)
    decreases |a|
  {
    if a == [] {
      assert a + b == b;
    } else {
      assert (a + b)[1..] == a[1..] + b;
      TurnsAppend(TakeTurn(st, a[0]), a[1..], b);
    }
  }

  lemma TurnKeepsGood(st: State, t: Turn)
    requires Good(Sys(st, map[]))
    ensures Good(Sys(TakeTurn(st, t), map[]))
  {
    match t
    case Serve(kind, nn, env) => ReconcileKeepsGood(st, kind, nn, env);
    case Act(a) =>
      if ByUser(a) || a.Crash? { GoodKept(Sys(st, map[]), a); }
      if ByUser(a) { UserFrame(Sys(st, map[]), a); }
  }

  /** Turns are a run of the step machine, so what they reach from `INIT` is reachable. */
  lemma {:induction false} TurnsAreARun(st: State, turns: seq<Turn>) returns (actions: seq<Action>)
    ensures Run(Sys(st, map[]), actions) == Sys(TakeTurns(st, turns), map[])
    decreases |turns|
  {
    actions := [];
    if turns != [] {
      var first: seq<Action> := [];
      match turns[0] {
        case Serve(kind, nn, env) => first := ReconcileIsARun(st, kind, nn, env);
        case Act(a) =>
          if ByUser(a) || a.Crash? {
            first := [a];
            assert first[1..] == [];
            if ByUser(a) { UserFrame(Sys(st, map[]), a); }
          }
      }
      var rest := TurnsAreARun(TakeTurn(st, turns[0]), turns[1..]);
      RunAppend(Sys(st, map[]), first, rest);
      actions := first + rest;
    }
  }
}
