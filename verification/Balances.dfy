/** The log against the balances: what the program's own transfers explain of every account, step by step
    and over whole runs. */
module Balances {
  import opened Prelude
  import opened Bytes
  import opened Seeds
  import opened FeeConfig
  import opened Ledger
  import opened Machine
  import opened Runs
  import opened Debits

  /** The transfers made between two states of a run. */
  function MovesBetween(w: World, v: World): seq<Move>
    requires |w.log| <= |v.log|
  {
    v.log[|w.log|..]
  }

  /** An instruction changes every account by exactly what its transfers bring in less what they take out. */
  lemma StepBalances(e: Env, w: World, tag: byte, x: Ix, k: Key)
    requires Step(e, w, tag, x).Ok?
    ensures var v := Step(e, w, tag, x).value;
            && |w.log| <= |v.log| && v.log == w.log + MovesBetween(w, v)
            && MovesBetween(w, v) == Moves(PlanOf(e, w, tag, x).value)
            && Balance(v, k) + Outflow(MovesBetween(w, v), k) == Balance(w, k) + Inflow(MovesBetween(w, v), k)
  {
    hide PlanOf, Exec, Moves;
    var ops := PlanOf(e, w, tag, x).value;
    ExecRecords(e, x.signers, w, ops);
    ExecBalances(e, x.signers, w, ops, k);
    assert Step(e, w, tag, x).value.log[|w.log|..] == Moves(ops);
  }

  /** What happened to an account between the program's instructions. */
  ghost function Drift(states: seq<World>, labels: seq<Label>, k: Key): int
    requires |states| == |labels| + 1
  {
    var n := |labels|;
    if n == 0 then 0 else
    Drift(states[..n], labels[..n - 1], k)
    + if labels[n - 1].Elsewhere? then Balance(states[n], k) - Balance(states[n - 1], k) else 0
  }

  lemma OutsideLog(e: Env, w: World, v: World)
    requires Outside(e, w, v)
    ensures v.log == w.log
  {
  }

  /** In every run the log and the changes made elsewhere account for every balance to the unit. */
  lemma {:induction false} RunsBalance(e: Env, r: Trace, n: nat, k: Key)
    requires IsRun(e, r) && n < |r.states|
    ensures Balance(r.states[n], k) + Outflow(r.states[n].log, k)
        == Balance(r.states[0], k) + Inflow(r.states[n].log, k) + Drift(r.states[..n + 1], r.labels[..n], k)
  {
    hide Step, Outside, ValidIx, ValidEnv, Balance;
    if n > 0 {
      RunsBalance(e, r, n - 1, k);
      var w, v, l := r.states[n - 1], r.states[n], r.labels[n - 1];
      assert Next(e, w, l, v);
      assert r.states[..n + 1][..n] == r.states[..n] && r.labels[..n][..n - 1] == r.labels[..n - 1];
      match l
      case Elsewhere => OutsideLog(e, w, v);
      case Call(tag, x) => {
        StepBalances(e, w, tag, x, k);
        FlowsSplit(w.log, MovesBetween(w, v), k);
      }
    }
  }

  lemma OutsideOnlyAdds(e: Env, w: World, v: World, k: Key)
    requires ProgramAccounts(e, w) && Outside(e, w, v) && Derived(e.derive, k)
    ensures Balance(w, k) <= Balance(v, k)
  {
  }

  lemma {:induction false} DriftOnlyAdds(e: Env, r: Trace, n: nat, k: Key)
    requires IsRun(e, r) && n < |r.states| && Derived(e.derive, k)
    ensures 0 <= Drift(r.states[..n + 1], r.labels[..n], k)
  {
    hide Step, Outside, ValidIx, ValidEnv, Balance, ProgramAccounts, Derived;
    if n > 0 {
      DriftOnlyAdds(e, r, n - 1, k);
      assert Next(e, r.states[n - 1], r.labels[n - 1], r.states[n]);
      assert r.states[..n + 1][..n] == r.states[..n] && r.labels[..n][..n - 1] == r.labels[..n - 1];
      if r.labels[n - 1].Elsewhere? {
        RunKeepsProgramAccounts(e, r, n - 1);
        OutsideOnlyAdds(e, r.states[n - 1], r.states[n], k);
      }
    }
  }

  /** Nothing the program took in is lost: in every run an account at a program address holds at least what
      the program's transfers ever brought in less what they took out. */
  lemma ProgramHoldsItsLog(e: Env, r: Trace, n: nat, k: Key)
    requires IsRun(e, r) && n < |r.states| && Derived(e.derive, k)
    ensures Inflow(r.states[n].log, k) <= Balance(r.states[n], k) + Outflow(r.states[n].log, k)
  {
    hide Step, Outside, ValidIx, ValidEnv, Drift;
    RunsBalance(e, r, n, k);
    DriftOnlyAdds(e, r, n, k);
  }
}
