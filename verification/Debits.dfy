/** No user account is debited without its owner's word: the invariant of program-held accounts, and what an
    instruction can take from an owner who did not sign. */
module Debits {
  import opened Prelude
  import opened Bytes
  import opened Seeds
  import opened Ledger
  import opened FeeConfig
  import opened Machine
  import opened Runs
  import opened Consent

  /** Token accounts at program addresses belong to program addresses and have no delegate. */
  ghost predicate ProgramAccounts(e: Env, w: World) {
    forall k :: k in w.tokens && Derived(e.derive, k) ==>
        Derived(e.derive, w.tokens[k].owner) && w.tokens[k].delegate.None?
  }

  lemma ApplyKeepsProgramAccounts(e: Env, tag: byte, x: Ix, w: World, op: Op)
    requires ValidIx(e, x) && ProgramAccounts(e, w) && Permitted(e, tag, x, op) && Apply(e, x.signers, w, op).Ok?
    ensures ProgramAccounts(e, Apply(e, x.signers, w, op).value)
  {
    hide Derived, Create, Preimage;
  }

  lemma {:induction false} ExecKeepsProgramAccounts(e: Env, tag: byte, x: Ix, w: World, ops: seq<Op>)
    requires ValidIx(e, x) && ProgramAccounts(e, w) && AllConsented(e, tag, x, ops) && Exec(e, x.signers, w, ops).Ok?
    ensures ProgramAccounts(e, Exec(e, x.signers, w, ops).value)
    decreases |ops|
  {
    hide ProgramAccounts, Permitted, ValidIx;
    if ops != [] {
      ApplyKeepsProgramAccounts(e, tag, x, w, ops[0]);
      ExecKeepsProgramAccounts(e, tag, x, Apply(e, x.signers, w, ops[0]).value, ops[1..]);
    }
  }

  lemma CallKeepsProgramAccounts(e: Env, w: World, tag: byte, x: Ix)
    requires ValidIx(e, x) && ProgramAccounts(e, w) && Step(e, w, tag, x).Ok?
    ensures ProgramAccounts(e, Step(e, w, tag, x).value)
  {
    hide PlanOf, ProgramAccounts, ValidIx, AllConsented, Exec;
    StepConsented(e, w, tag, x);
    ExecKeepsProgramAccounts(e, tag, x, w, PlanOf(e, w, tag, x).value);
  }

  /** Nobody but the program opens an account at its addresses, so in every reachable state such an
      account is the program's own. */
  lemma {:induction false} RunKeepsProgramAccounts(e: Env, r: Trace, n: nat)
    requires IsRun(e, r) && n < |r.states|
    ensures ProgramAccounts(e, r.states[n])
  {
    hide Step, ValidIx, ValidEnv, Derived;
    if n > 0 {
      RunKeepsProgramAccounts(e, r, n - 1);
      var w, v, l := r.states[n - 1], r.states[n], r.labels[n - 1];
      assert Next(e, w, l, v);
      if l.Call? {
        CallKeepsProgramAccounts(e, w, l.tag, l.x);
      }
    }
  }

  /** The account kept its mint, owner and delegate, and has at least what it had. */
  ghost predicate Undebited(w: World, v: World, a: Key) {
    && a in w.tokens && a in v.tokens
    && v.tokens[a].mint == w.tokens[a].mint && v.tokens[a].owner == w.tokens[a].owner
        && v.tokens[a].delegate == w.tokens[a].delegate
    && w.tokens[a].amount <= v.tokens[a].amount
  }

  /** Neither the owner of the account nor its delegate signed, and its owner is not a program address. */
  ghost predicate Silent(e: Env, w: World, x: Ix, a: Key) {
    && a in w.tokens && !Derived(e.derive, w.tokens[a].owner) && w.tokens[a].owner !in x.signers
    && (w.tokens[a].delegate.Some? ==> w.tokens[a].delegate.value !in x.signers)
  }

  lemma ApplySpares(e: Env, tag: byte, x: Ix, w: World, op: Op, a: Key)
    requires Permitted(e, tag, x, op) && Apply(e, x.signers, w, op).Ok?
    requires !Derived(e.derive, a) && Silent(e, w, x, a) && SaleAccount(tag, x) != Some(a)
    ensures Undebited(w, Apply(e, x.signers, w, op).value, a)
  {
    hide Derived, Preimage, SaleAccount;
  }

  lemma {:induction false} ExecSpares(e: Env, tag: byte, x: Ix, w: World, ops: seq<Op>, a: Key)
    requires AllConsented(e, tag, x, ops) && Exec(e, x.signers, w, ops).Ok?
    requires !Derived(e.derive, a) && Silent(e, w, x, a) && SaleAccount(tag, x) != Some(a)
    ensures Undebited(w, Exec(e, x.signers, w, ops).value, a)
    decreases |ops|
  {
    hide Derived, Permitted, Apply, SaleAccount;
    if ops != [] {
      ApplySpares(e, tag, x, w, ops[0], a);
      ExecSpares(e, tag, x, Apply(e, x.signers, w, ops[0]).value, ops[1..], a);
    }
  }

  /** An account whose owner and delegate did not sign is not debited, unless it is the one the instruction's
      sale names. */
  lemma OnlyTheSaleDebits(e: Env, w: World, tag: byte, x: Ix, a: Key)
    requires ProgramAccounts(e, w) && Step(e, w, tag, x).Ok?
    requires Silent(e, w, x, a) && SaleAccount(tag, x) != Some(a)
    ensures Undebited(w, Step(e, w, tag, x).value, a)
  {
    hide PlanOf, AllConsented, SaleAccount, Exec, Undebited, Derived;
    StepConsented(e, w, tag, x);
    ExecSpares(e, tag, x, w, PlanOf(e, w, tag, x).value, a);
  }
}
