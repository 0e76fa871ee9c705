/** When the two builds of the settlement program accept an instruction and what it then does, in terms of instruction
    bytes, account bytes and lamports alone. */
module SettlementAdmission {
  import opened Prelude
  import opened Bytes
  import opened Layout
  import opened Settlement

  /** The settlement's account: the derived address of the id in bytes 1 to 33 of the instruction. */
  predicate AtId(c: Chain, x: Invocation, k: Key)
    requires |x.data| >= 33
  {
    var p := IdAddress(c.derive, x.data[1..33]);
    p.Ok? && p.value.key == k
  }

  // ---- deposits ----

  /** The signer can fund a new account with the amount in bytes 33 to 41, which clears the rent floor. */
  predicate Fundable(c: Chain, a: Accounts, x: Invocation)
    requires |x.data| == 81 && |x.accounts| >= 2
  {
    var payer, amount := At(a, x.accounts[0]), U64Of(x.data[33..41]);
    && x.accounts[0] in x.signers && AtId(c, x, x.accounts[1])
    && At(a, x.accounts[1]) == NOBODY && payer.owner == ZERO && payer.data == []
    && c.rentFloor <= amount <= payer.lamports
  }

  /** The deposit moves from signer to settlement, whose bytes are the signer's key, then bytes 33 to 81 of the
      instruction as they are, then the canonical bump. */
  function Funded(c: Chain, a: Accounts, x: Invocation): Accounts
    requires |x.data| == 81 && |x.accounts| >= 2 && Fundable(c, a, x)
  {
    var payer, settlement, amount := x.accounts[0], x.accounts[1], U64Of(x.data[33..41]);
    a[payer := At(a, payer).(lamports := At(a, payer).lamports - amount)]
     [settlement := Account(amount, c.program,
          payer + x.data[33..81] + [IdAddress(c.derive, x.data[1..33]).value.bump])]
  }

  /** The record of a deposit is the depositor, 48 payload bytes and the bump. */
  lemma DepositBytes(depositor: Key, data: seq<byte>, bump: byte)
    requires |data| == 81
    ensures var d := data[1..];
            BorshImage(Deposit(depositor, U64At(d, 32), KeyAt(d, 40), I64At(d, 72), bump))
            == depositor + data[33..81] + [bump]
  {
    hide U64Bytes, U64Of, I64Bytes, I64Of;
    var d := data[1..];
    NumbersWriteBack(d[32..40]);
    NumbersWriteBack(d[72..80]);
    assert d[32..40] == data[33..41] && d[40..72] == data[41..73] && d[72..80] == data[73..81];
    assert data[33..81] == data[33..41] + data[41..73] + data[73..81];
  }

  /** A deposit is accepted exactly when its 81 bytes, its accounts and its funds are right, and then only moves the
      amount and records the terms; the readable build also takes more accounts. */
  lemma DepositAccepted(c: Chain, a: Accounts, now: int, x: Invocation)
    requires x.data != [] && x.data[0] == 0
    ensures Lean(c, a, now, x).Ok? <==> |x.data| == 81 && |x.accounts| == 3 && Fundable(c, a, x)
    ensures Readable(c, a, now, x).Ok? <==> |x.data| == 81 && |x.accounts| >= 3 && Fundable(c, a, x)
    ensures Lean(c, a, now, x).Ok? ==> Lean(c, a, now, x).value == Funded(c, a, x)
    ensures Readable(c, a, now, x).Ok? ==> Readable(c, a, now, x).value == Funded(c, a, x)
  {
    hide IdAddress, BorshRequest, LeanImage, BorshImage, U64Of, I64Of;
    RequestFields(x.data);
    if |x.data| == 81 && |x.accounts| >= 3 {
      var d := x.data[1..];
      assert d[0..32] == x.data[1..33] && d[32..40] == x.data[33..41];
      var p := IdAddress(c.derive, x.data[1..33]);
      if p.Ok? {
        DepositBytes(x.accounts[0], x.data, p.value.bump);
        BuildsWriteAlike(Deposit(x.accounts[0], U64At(d, 32), KeyAt(d, 40), I64At(d, 72), p.value.bump));
      }
    }
  }

  // ---- payouts ----

  /** The signer is paid out of the program's account at the id. */
  predicate Payable(c: Chain, a: Accounts, x: Invocation)
    requires |x.data| >= 33 && |x.accounts| >= 2
  {
    && x.accounts[0] in x.signers && AtId(c, x, x.accounts[1]) && At(a, x.accounts[1]).owner == c.program
    && At(a, x.accounts[0]).lamports + At(a, x.accounts[1]).lamports < U64
  }

  /** Every lamport of the settlement moves to the signer, and its bytes are zeroed. */
  function PaidOut(a: Accounts, x: Invocation): Accounts
    requires |x.accounts| >= 2
  {
    var payee, settlement := x.accounts[0], x.accounts[1];
    a[payee := At(a, payee).(lamports := At(a, payee).lamports + At(a, settlement).lamports)]
     [settlement := Account(0, At(a, settlement).owner, seq(|At(a, settlement).data|, _ => 0))]
  }

  /** The salt: bytes from 37 on, as many as the little-endian length in bytes 33 to 37 says. */
  predicate HasSalt(x: Invocation) {
    |x.data| >= 37 && |x.data| >= 37 + LE(x.data[33..37])
  }

  /** The record's commitment, bytes 40 to 72, is the hash of the signer's key and the salt, and its unlock time, bytes
      72 to 80, has come. */
  predicate Unlocked(c: Chain, a: Accounts, now: int, x: Invocation)
    requires HasSalt(x) && |x.accounts| >= 2
  {
    var s := At(a, x.accounts[1]).data;
    && |s| >= 80 && s[40..72] == c.hash(x.accounts[0] + x.data[37..37 + LE(x.data[33..37])])
    && I64Of(s[72..80]) <= now
  }

  /** A claim is accepted exactly when the signer hashes with the salt to the commitment from the unlock time on, and
      then pays out everything; the readable build also wants a whole record and nothing after the salt. */
  lemma ClaimAccepted(c: Chain, a: Accounts, now: int, x: Invocation)
    requires x.data != [] && x.data[0] == 1
    ensures Lean(c, a, now, x).Ok? <==>
            HasSalt(x) && |x.accounts| == 2 && Payable(c, a, x) && Unlocked(c, a, now, x)
    ensures Readable(c, a, now, x).Ok? <==>
            && HasSalt(x) && |x.data| == 37 + LE(x.data[33..37]) && |x.accounts| >= 2
            && Payable(c, a, x) && |At(a, x.accounts[1]).data| == 81 && Unlocked(c, a, now, x)
    ensures Lean(c, a, now, x).Ok? ==> Lean(c, a, now, x).value == PaidOut(a, x)
    ensures Readable(c, a, now, x).Ok? ==> Readable(c, a, now, x).value == PaidOut(a, x)
  {
    hide IdAddress, BorshRequest, BorshRead, LE, I64Of;
    ClaimFields(x.data);
    if |x.accounts| >= 2 {
      BuildsReadAlike(At(a, x.accounts[1]).data);
    }
    var d := x.data[1..];
    if |d| >= 36 {
      assert d[0..32] == x.data[1..33];
      if HasSalt(x) {
        assert d[36..36 + LE(d[32..36])] == x.data[37..37 + LE(x.data[33..37])];
      }
    }
  }

  /** A reclaim is accepted exactly when the signer is the depositor the record names, at any time, and then pays out
      everything; the readable build also wants a whole record. */
  lemma ReclaimAccepted(c: Chain, a: Accounts, now: int, x: Invocation)
    requires x.data != [] && x.data[0] == 2
    ensures Lean(c, a, now, x).Ok? <==>
            && |x.data| == 33 && |x.accounts| == 2 && Payable(c, a, x)
            && var s := At(a, x.accounts[1]).data; |s| >= 32 && s[0..32] == x.accounts[0]
    ensures Readable(c, a, now, x).Ok? <==>
            && |x.data| == 33 && |x.accounts| >= 2 && Payable(c, a, x)
            && var s := At(a, x.accounts[1]).data; |s| == 81 && s[0..32] == x.accounts[0]
    ensures Lean(c, a, now, x).Ok? ==> Lean(c, a, now, x).value == PaidOut(a, x)
    ensures Readable(c, a, now, x).Ok? ==> Readable(c, a, now, x).value == PaidOut(a, x)
  {
    hide IdAddress, BorshRequest, BorshRead;
    RequestFields(x.data);
    if |x.accounts| >= 2 {
      BuildsReadAlike(At(a, x.accounts[1]).data);
    }
    if |x.data| == 33 {
      assert x.data[1..][0..32] == x.data[1..33];
    }
  }
}
