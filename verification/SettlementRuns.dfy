/** The settlement program over runs: every deposit is paid out at most once, whole, to its depositor or to
    the hidden beneficiary after the unlock time. */
module SettlementRuns {
  import opened Prelude
  import opened Bytes
  import opened Layout
  import opened Seeds
  import opened Settlement

  datatype World = World(accounts: Accounts, now: int)

  /** Derivation has no collisions, nothing hashes to zero, the program is not the system program, and an
      account below the rent floor does not exist. */
  ghost predicate ValidChain(c: Chain) {
    CollisionFree(c.derive) && (forall x :: c.hash(x) != ZERO) && c.program != ZERO && c.rentFloor > 0
  }

  /** Neither the zero key nor a program address signs a transaction. */
  ghost predicate ValidSigners(c: Chain, x: Invocation) {
    ZERO !in x.signers && forall k :: k in x.signers ==> !Derived(c.derive, k)
  }

  datatype Label = Invoke(x: Invocation) | Elsewhere

  /** Other programs cannot take lamports from, or write to, an account this program owns; they may fund it.
      The runtime reaps one without lamports. Nobody else makes an account the program's. */
  ghost predicate Outside(c: Chain, w: World, v: World) {
    && w.now <= v.now
    && (forall k :: k in w.accounts && w.accounts[k].owner == c.program && w.accounts[k].lamports > 0 ==>
          k in v.accounts && v.accounts[k].owner == c.program && v.accounts[k].data == w.accounts[k].data
              && w.accounts[k].lamports <= v.accounts[k].lamports)
    && (forall k :: k in v.accounts && v.accounts[k].owner == c.program ==>
          k in w.accounts && w.accounts[k].owner == c.program && v.accounts[k].data == w.accounts[k].data
              && w.accounts[k].lamports <= v.accounts[k].lamports)
  }

  ghost predicate Next(c: Chain, w: World, l: Label, v: World) {
    match l
    case Invoke(x) => ValidSigners(c, x) && Lean(c, w.accounts, w.now, x) == Ok(v.accounts) && v.now == w.now
    case Elsewhere => Outside(c, w, v)
  }

  datatype Trace = Trace(states: seq<World>, labels: seq<Label>)

  ghost predicate IsRun(c: Chain, r: Trace) {
    && ValidChain(c)
    && |r.states| == |r.labels| + 1
    && (forall k :: k in r.states[0].accounts ==> r.states[0].accounts[k].owner != c.program)
    && forall i :: 0 <= i < |r.labels| ==> Next(c, r.states[i], r.labels[i], r.states[i + 1])
  }

  // ---- the invariant ----

  /** A record that has not been wiped. */
  predicate LiveRecord(s: seq<byte>) {
    |s| == STATE_LEN && KeyAt(s, O_DEPOSITOR) != ZERO
  }

  /** An open settlement: funded at least with the recorded amount. */
  predicate Open(c: Chain, a: Accounts, k: Key) {
    k in a && a[k].owner == c.program && LiveRecord(a[k].data)
  }

  ghost predicate AccountOk(c: Chain, k: Key, s: Account) {
    && |s.data| == STATE_LEN && Derived(c.derive, k)
    && (if LiveRecord(s.data) then LeanRead(s.data).amount <= s.lamports
        && c.rentFloor <= s.lamports else s.data == Zeros(STATE_LEN))
  }

  ghost predicate Inv(c: Chain, a: Accounts) {
    forall k :: k in a && a[k].owner == c.program ==> AccountOk(c, k, a[k])
  }

  /** The settlement account an invocation names. */
  predicate Names(x: Invocation, k: Key) {
    |x.accounts| > 1 && x.accounts[1] == k
  }

  predicate Deposits(l: Label, k: Key) {
    l.Invoke? && l.x.data != [] && l.x.data[0] == 0 && Names(l.x, k)
  }

  predicate PaysOut(l: Label, k: Key) {
    l.Invoke? && l.x.data != [] && (l.x.data[0] == 1 || l.x.data[0] == 2) && Names(l.x, k)
  }

  /** The deposit an accepted `deposit` records. */
  function Terms(c: Chain, x: Invocation): Deposit
    requires |x.data| == 81 && |x.accounts| > 0 && IdAddress(c.derive, KeyAt(x.data[1..], 0)).Ok?
  {
    var d := x.data[1..];
    Deposit(x.accounts[0], U64At(d, 32), KeyAt(d, 40), I64At(d, 72), IdAddress(c.derive, KeyAt(d, 0)).value.bump)
  }

  lemma Depositor(s: seq<byte>)
    requires |s| == STATE_LEN
    ensures LeanRead(s).depositor == KeyAt(s, O_DEPOSITOR) && LeanRead(s).commitment == KeyAt(s, O_COMMIT)
        && LeanRead(s).unlock == I64At(s, O_UNLOCK)
  {
  }

  /** What an accepted deposit does: a fresh account at the id's address holds the terms and the whole
      amount, and only the depositor paid. */
  lemma DepositEffect(c: Chain, w: World, x: Invocation, v: World, k: Key)
    requires ValidChain(c) && Next(c, w, Invoke(x), v) && Deposits(Invoke(x), k)
    ensures |x.data| == 81 && |x.accounts| == 3 && IdAddress(c.derive, KeyAt(x.data[1..], 0)).Ok?
        && k == IdAddress(c.derive, KeyAt(x.data[1..], 0)).value.key
    ensures x.accounts[0] in x.signers && At(w.accounts, k) == NOBODY && x.accounts[0] != k
    ensures var t := Terms(c, x);
            && k in v.accounts && v.accounts[k] == Account(t.amount, c.program, LeanImage(t)) && c.rentFloor <= t.amount
            && v.accounts == w.accounts[t.depositor := At(w.accounts,
                t.depositor).(lamports := At(w.accounts, t.depositor).lamports - t.amount)][k := v.accounts[k]]
            && At(w.accounts, t.depositor).owner == ZERO
    ensures LiveRecord(LeanImage(Terms(c, x))) && LeanRead(LeanImage(Terms(c, x))) == Terms(c, x)
  {
    hide LeanImage, LeanRead, IdAddress, CollisionFree;
    var d := x.data[1..];
    var p := IdAddress(c.derive, KeyAt(d, 0));
    assert p.Ok?;
    assert Derived(c.derive, k);
    DepositReadsBack(Terms(c, x));
    Depositor(LeanImage(Terms(c, x)));
  }

  lemma WipedRecord()
    ensures KeyAt(Zeros(STATE_LEN), O_DEPOSITOR) == ZERO && KeyAt(Zeros(STATE_LEN), O_COMMIT) == ZERO
        && !LiveRecord(Zeros(STATE_LEN))
  {
  }

  /** What an accepted payout does: the record was live, the payee signed and either is the depositor or
      proves the commitment from the unlock time on, and every lamport of the account moves to the payee. */
  lemma PayoutEffect(c: Chain, w: World, x: Invocation, v: World, k: Key)
    requires ValidChain(c) && Next(c, w, Invoke(x), v) && PaysOut(Invoke(x), k) && Inv(c, w.accounts)
    ensures |x.accounts| == 2 && x.accounts[0] in x.signers && x.accounts[0] != k && Open(c, w.accounts, k)
    ensures var payee, t := x.accounts[0], LeanRead(w.accounts[k].data);
            && (x.data[0] == 2 ==> payee == t.depositor)
            && (x.data[0] == 1 ==>
                LeanSalt(x.data[1..]).Some? && c.hash(payee + LeanSalt(x.data[1..]).value) == t.commitment
                && t.unlock <= w.now)
            && v.accounts == w.accounts[payee := At(w.accounts,
                payee).(lamports := At(w.accounts, payee).lamports + w.accounts[k].lamports)][k :=
                Account(0, c.program, Zeros(STATE_LEN))]
  {
    hide IdAddress, LeanRead, CollisionFree, Zeros;
    var s := At(w.accounts, k).data;
    assert At(w.accounts, k).owner == c.program && k in w.accounts;
    assert AccountOk(c, k, w.accounts[k]);
    WipedRecord();
    Depositor(s);
  }

  lemma InvokeNames(c: Chain, w: World, x: Invocation, v: World) returns (k: Key)
    requires Next(c, w, Invoke(x), v)
    ensures Names(x, k) && (Deposits(Invoke(x), k) || PaysOut(Invoke(x), k))
  {
    k := x.accounts[1];
  }

  lemma TermsAmount(c: Chain, x: Invocation)
    requires |x.data| == 81 && |x.accounts| > 0 && IdAddress(c.derive, KeyAt(x.data[1..], 0)).Ok?
    ensures LeanRead(LeanImage(Terms(c, x))).amount == Terms(c, x).amount
  {
    hide LeanRead, LeanImage;
    DepositReadsBack(Terms(c, x));
  }

  lemma InvokeKeepsInv(c: Chain, w: World, x: Invocation, v: World)
    requires ValidChain(c) && Inv(c, w.accounts) && Next(c, w, Invoke(x), v)
    ensures Inv(c, v.accounts)
  {
    hide Lean, ValidSigners, LeanRead, LeanImage, Terms, LiveRecord;
    var k := InvokeNames(c, w, x, v);
    if Deposits(Invoke(x), k) {
      DepositEffect(c, w, x, v, k);
      var t := Terms(c, x);
      TermsAmount(c, x);
      assert Derived(c.derive, k);
    } else {
      PayoutEffect(c, w, x, v, k);
      WipedRecord();
    }
  }

  lemma OutsideKeepsInv(c: Chain, w: World, v: World)
    requires Inv(c, w.accounts) && Outside(c, w, v)
    ensures Inv(c, v.accounts)
  {
    hide LeanRead, LiveRecord, Derived;
  }

  lemma NothingYet(c: Chain, w: World)
    requires forall k :: k in w.accounts ==> w.accounts[k].owner != c.program
    ensures Inv(c, w.accounts)
  {
  }

  /** In every reachable state each open settlement holds at least what was deposited. */
  lemma {:induction false} RunKeepsInv(c: Chain, r: Trace, n: nat)
    requires IsRun(c, r) && n < |r.states|
    ensures Inv(c, r.states[n].accounts)
  {
    hide Inv, Outside, Lean, ValidSigners, ValidChain;
    if n == 0 {
      NothingYet(c, r.states[0]);
    } else {
      RunKeepsInv(c, r, n - 1);
      assert Next(c, r.states[n - 1], r.labels[n - 1], r.states[n]);
      match r.labels[n - 1]
      case Invoke(x) => InvokeKeepsInv(c, r.states[n - 1], x, r.states[n]);
      case Elsewhere => OutsideKeepsInv(c, r.states[n - 1], r.states[n]);
    }
  }

  // ---- deposits and payouts alternate ----

  function CountDeposits(labels: seq<Label>, k: Key): nat {
    if labels == [] then 0 else
    CountDeposits(labels[..|labels| - 1], k) + (if Deposits(labels[|labels| - 1], k) then 1 else 0)
  }

  function CountPayouts(labels: seq<Label>, k: Key): nat {
    if labels == [] then 0 else
    CountPayouts(labels[..|labels| - 1], k) + (if PaysOut(labels[|labels| - 1], k) then 1 else 0)
  }

  /** How one step moves one address between open and not open, and that an open record does not change. */
  lemma StepAt(c: Chain, w: World, l: Label, v: World, k: Key)
    requires ValidChain(c) && Inv(c, w.accounts) && Next(c, w, l, v)
    ensures Deposits(l, k) ==> !Open(c, w.accounts, k) && Open(c, v.accounts, k)
    ensures PaysOut(l, k) ==> Open(c, w.accounts, k) && !Open(c, v.accounts, k)
    ensures !Deposits(l, k) && !PaysOut(l, k) ==> (Open(c, w.accounts, k) <==> Open(c, v.accounts, k))
    ensures !Deposits(l, k) && !PaysOut(l, k) && Open(c, w.accounts, k) ==>
        v.accounts[k].data == w.accounts[k].data && w.accounts[k].lamports <= v.accounts[k].lamports
  {
    hide Lean, LeanRead, LeanImage, Terms;
    match l
    case Invoke(x) => {
      var q := InvokeNames(c, w, x, v);
      if Deposits(l, q) {
        DepositEffect(c, w, x, v, q);
      } else {
        PayoutEffect(c, w, x, v, q);
        WipedRecord();
      }
      if k != q && Open(c, w.accounts, k) {
        assert k !in x.signers;
      }
    }
    case Elsewhere => {
      if Open(c, w.accounts, k) {
        assert AccountOk(c, k, w.accounts[k]);
      }
    }
  }

  lemma NothingOpen(c: Chain, w: World, k: Key)
    requires forall q :: q in w.accounts ==> w.accounts[q].owner != c.program
    ensures !Open(c, w.accounts, k)
  {
  }

  /** Over every run deposits and payouts at an address alternate, so each deposit is paid out at most once. */
  lemma {:induction false} DepositsAndPayoutsAlternate(c: Chain, r: Trace, n: nat, k: Key)
    requires IsRun(c, r) && n < |r.states|
    ensures CountDeposits(r.labels[..n], k) == CountPayouts(r.labels[..n], k)
        + if Open(c, r.states[n].accounts, k) then 1 else 0
  {
    hide Next, Open, Inv, ValidChain, Deposits, PaysOut;
    if n == 0 {
      NothingOpen(c, r.states[0], k);
    } else {
      DepositsAndPayoutsAlternate(c, r, n - 1, k);
      RunKeepsInv(c, r, n - 1);
      assert r.labels[..n][..n - 1] == r.labels[..n - 1];
      StepAt(c, r.states[n - 1], r.labels[n - 1], r.states[n], k);
    }
  }

  /** An open settlement goes back to one deposit, whose record it still holds, with at least its amount. */
  lemma {:induction false} Origin(c: Chain, r: Trace, n: nat, k: Key) returns (i: nat)
    requires IsRun(c, r) && n < |r.states| && Open(c, r.states[n].accounts, k)
    ensures i < n && Deposits(r.labels[i], k) && (forall j :: i < j < n ==>
        !Deposits(r.labels[j], k) && !PaysOut(r.labels[j], k))
    ensures k in r.states[i + 1].accounts && r.states[i + 1].accounts[k].data == r.states[n].accounts[k].data
    ensures r.states[i + 1].accounts[k].lamports <= r.states[n].accounts[k].lamports
  {
    hide Next, Inv, ValidChain, Deposits, PaysOut, LiveRecord;
    RunKeepsInv(c, r, n - 1);
    StepAt(c, r.states[n - 1], r.labels[n - 1], r.states[n], k);
    if Deposits(r.labels[n - 1], k) {
      i := n - 1;
    } else {
      i := Origin(c, r, n - 1, k);
    }
  }

  /** Every payout of every run pays exactly one earlier deposit, whole: the payee receives every lamport of
      the account, at least the amount deposited, and is either that deposit's depositor or a signer whose
      key and salt hash to its commitment, from its unlock time on. */
  lemma PayoutsAreWhole(c: Chain, r: Trace, n: nat, x: Invocation, k: Key)
      returns (i: nat, y: Invocation, t: Deposit, paid: nat)
    requires IsRun(c, r) && n < |r.labels| && r.labels[n] == Invoke(x) && PaysOut(r.labels[n], k)
    ensures i < n && r.labels[i] == Invoke(y) && Deposits(r.labels[i], k) && forall j ::
        i < j < n ==> !Deposits(r.labels[j], k) && !PaysOut(r.labels[j], k)
    ensures |y.data| == 81 && |y.accounts| == 3 && y.accounts[0] in y.signers
        && IdAddress(c.derive, KeyAt(y.data[1..], 0)).Ok? && t == Terms(c, y)
    ensures |x.accounts| == 2 && x.accounts[0] in x.signers
    ensures x.data[0] == 2 ==> x.accounts[0] == t.depositor
    ensures x.data[0] == 1 ==>
        LeanSalt(x.data[1..]).Some? && c.hash(x.accounts[0] + LeanSalt(x.data[1..]).value) == t.commitment
        && t.unlock <= r.states[n].now
    ensures t.amount <= paid && paid == At(r.states[n].accounts, k).lamports
        && At(r.states[n + 1].accounts, k).lamports == 0
    ensures At(r.states[n + 1].accounts, x.accounts[0]).lamports == At(r.states[n].accounts, x.accounts[0]).lamports
        + paid
  {
    hide Inv, ValidChain, Lean, LeanRead, LeanImage, LiveRecord, IdAddress, ValidSigners;
    RunKeepsInv(c, r, n);
    assert Next(c, r.states[n], r.labels[n], r.states[n + 1]);
    PayoutEffect(c, r.states[n], x, r.states[n + 1], k);
    i := Origin(c, r, n, k);
    y := r.labels[i].x;
    assert Next(c, r.states[i], r.labels[i], r.states[i + 1]);
    DepositEffect(c, r.states[i], y, r.states[i + 1], k);
    t := Terms(c, y);
    paid := r.states[n].accounts[k].lamports;
  }
}
