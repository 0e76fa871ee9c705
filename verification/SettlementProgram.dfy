/** The two builds of the settlement program as they run: accounts mutated in place. */
module SettlementProgram {
  import opened Prelude
  import opened Bytes
  import opened Layout
  import opened Settlement
  import B = Bank

  class Cluster {
    const chain: Chain
    var accounts: Accounts
    var now: int

    constructor (chain: Chain, accounts: Accounts, now: int)
      ensures this.chain == chain && this.accounts == accounts && this.now == now
    {
      this.chain, this.accounts, this.now := chain, accounts, now;
    }

    /** The system program's `create_account`. */
    method Create(signers: set<Key>, payer: Key, to: Key, lamports: nat) returns (r: Outcome)
      modifies this`accounts
      ensures Answers(CreateAccount(chain, old(accounts), signers, payer, to, lamports), old(accounts), r, accounts)
    {
      if payer !in signers {
        return Fail(MissingRequiredSignature);
      }
      if At(accounts, to) != NOBODY {
        return Fail(AccountInUse);
      }
      var p := At(accounts, payer);
      if p.owner != ZERO || p.data != [] {
        return Fail(InvalidArgument);
      }
      if p.lamports < lamports || lamports < chain.rentFloor {
        return Fail(InsufficientFunds);
      }
      accounts := accounts[payer := p.(lamports := p.lamports - lamports)];
      accounts := accounts[to := Account(lamports, chain.program, Zeros(STATE_LEN))];
      return Pass;
    }

    /** `close`: sweep every lamport into `dest`, wipe the data. */
    method Close(account: Key, dest: Key) returns (r: Outcome)
      modifies this`accounts
      ensures Answers(Sweep(old(accounts), account, dest), old(accounts), r, accounts)
    {
      var a, d := At(accounts, account), At(accounts, dest);
      if d.lamports + a.lamports >= U64 {
        return Fail(ArithmeticOverflow);
      }
      accounts := accounts[dest := d.(lamports := d.lamports + a.lamports)];
      accounts := accounts[account := Account(0, a.owner, Zeros(|a.data|))];
      return Pass;
    }
  }

  /** The call answered as specified; a refusal changed nothing. */
  ghost predicate Answers(expected: Result<Accounts>, before: Accounts, r: Outcome, after: Accounts) {
    match expected
    case Ok(a) => r == Pass && after == a
    case Err(error) => r == Fail(error) && after == before
  }

  // ---- the lean build ----

  /** The five writes by offset. */
  method LeanWrite(s: array<byte>, d: Deposit)
    requires s[..] == Zeros(STATE_LEN)
    modifies s
    ensures s[..] == LeanImage(d)
  {
    hide Put;
    B.CopyInto(s, O_DEPOSITOR, d.depositor);
    B.CopyInto(s, O_AMOUNT, U64Bytes(d.amount));
    B.CopyInto(s, O_COMMIT, d.commitment);
    B.CopyInto(s, O_UNLOCK, I64Bytes(d.unlock));
    B.CopyInto(s, Settlement.O_BUMP, [d.bump]);
  }

  method DoLeanDeposit(b: Cluster, x: Invocation, d: seq<byte>) returns (r: Outcome)
    modifies b`accounts
    ensures Answers(LeanDeposit(b.chain, old(b.accounts), x, d), old(b.accounts), r, b.accounts)
  {
    hide LeanImage;
    if |d| != 80 {
      return Fail(InvalidInstructionData);
    }
    var id, amount, commitment, unlock := KeyAt(d, 0), U64At(d, 32), KeyAt(d, 40), I64At(d, 72);
    if |x.accounts| != 3 {
      return Fail(NotEnoughAccountKeys);
    }
    var depositor, settlement := x.accounts[0], x.accounts[1];
    if depositor !in x.signers {
      return Fail(MissingRequiredSignature);
    }
    var p := IdAddress(b.chain.derive, id);
    if p.Err? || p.value.key != settlement {
      return Fail(InvalidSeeds);
    }
    r := b.Create(x.signers, depositor, settlement, amount);
    if r.Fail? {
      return;
    }
    var s := new byte[STATE_LEN](_ => 0);
    assert s[..] == b.accounts[settlement].data;
    LeanWrite(s, Deposit(depositor, amount, commitment, unlock, p.value.bump));
    b.accounts := b.accounts[settlement := b.accounts[settlement].(data := s[..])];
  }

  method DoLeanClaim(b: Cluster, x: Invocation, d: seq<byte>) returns (r: Outcome)
    modifies b`accounts
    ensures Answers(LeanClaim(b.chain, old(b.accounts), b.now, x, d), old(b.accounts), r, b.accounts)
  {
    hide Sweep;
    if |d| < 36 {
      return Fail(InvalidInstructionData);
    }
    var saltLength := LE(d[32..36]);
    if |d| < 36 + saltLength {
      return Fail(InvalidInstructionData);
    }
    var salt := d[36..36 + saltLength];
    if |x.accounts| != 2 {
      return Fail(NotEnoughAccountKeys);
    }
    var beneficiary, settlement := x.accounts[0], x.accounts[1];
    if beneficiary !in x.signers {
      return Fail(MissingRequiredSignature);
    }
    var p := VerifyPda(b.chain, b.accounts, settlement, KeyAt(d, 0));
    if p.Err? {
      return Fail(p.error);
    }
    var s := At(b.accounts, settlement).data;
    if |s| < 80 {
      return Fail(InvalidAccountData);
    }
    if b.chain.hash(beneficiary + salt) != KeyAt(s, O_COMMIT) {
      return Fail(InvalidArgument);
    }
    if b.now < I64At(s, O_UNLOCK) {
      return Fail(InvalidArgument);
    }
    r := b.Close(settlement, beneficiary);
  }

  method DoLeanReclaim(b: Cluster, x: Invocation, d: seq<byte>) returns (r: Outcome)
    modifies b`accounts
    ensures Answers(LeanReclaim(b.chain, old(b.accounts), x, d), old(b.accounts), r, b.accounts)
  {
    hide Sweep;
    if |d| != 32 {
      return Fail(InvalidInstructionData);
    }
    if |x.accounts| != 2 {
      return Fail(NotEnoughAccountKeys);
    }
    var depositor, settlement := x.accounts[0], x.accounts[1];
    if depositor !in x.signers {
      return Fail(MissingRequiredSignature);
    }
    var p := VerifyPda(b.chain, b.accounts, settlement, KeyAt(d, 0));
    if p.Err? {
      return Fail(p.error);
    }
    var s := At(b.accounts, settlement).data;
    if |s| < 32 {
      return Fail(InvalidAccountData);
    }
    if KeyAt(s, O_DEPOSITOR) != depositor {
      return Fail(IllegalOwner);
    }
    r := b.Close(settlement, depositor);
  }

  /** `process` of the lean build: split off the tag, dispatch. */
  method LeanProcess(b: Cluster, x: Invocation) returns (r: Outcome)
    modifies b`accounts
    ensures Answers(Lean(b.chain, old(b.accounts), b.now, x), old(b.accounts), r, b.accounts)
  {
    hide LeanDeposit, LeanClaim, LeanReclaim;
    if x.data == [] {
      return Fail(InvalidInstructionData);
    }
    var tag, rest := x.data[0], x.data[1..];
    if tag == 0 {
      r := DoLeanDeposit(b, x, rest);
    } else if tag == 1 {
      r := DoLeanClaim(b, x, rest);
    } else if tag == 2 {
      r := DoLeanReclaim(b, x, rest);
    } else {
      return Fail(InvalidInstructionData);
    }
  }

  // ---- the readable build ----

  /** Borsh decoding with a cursor: each field is read at the cursor, which must end at the end. */
  method Decode(s: seq<byte>) returns (r: Option<Deposit>)
    ensures r == BorshRead(s)
  {
    BuildsReadAlike(s);
    var o := 0;
    if |s| < o + 32 {
      return None;
    }
    var depositor := s[o..o + 32];
    o := o + 32;
    if |s| < o + 8 {
      return None;
    }
    var amount := U64Of(s[o..o + 8]);
    o := o + 8;
    if |s| < o + 32 {
      return None;
    }
    var commitment := s[o..o + 32];
    o := o + 32;
    if |s| < o + 8 {
      return None;
    }
    var unlock := I64Of(s[o..o + 8]);
    o := o + 8;
    if |s| != o + 1 {
      return None;
    }
    return Some(Deposit(depositor, amount, commitment, unlock, s[o]));
  }

  /** `load`. */
  method Load(b: Cluster, settlement: Key, id: Key) returns (r: Result<Deposit>)
    ensures r == ReadableLoad(b.chain, b.accounts, settlement, id)
  {
    hide BorshRead;
    var p := IdAddress(b.chain.derive, id);
    if p.Err? || p.value.key != settlement {
      return Err(InvalidSeeds);
    }
    var a := At(b.accounts, settlement);
    if a.owner != b.chain.program {
      return Err(IllegalOwner);
    }
    var s := Decode(a.data);
    return if s.None? then Err(InvalidAccountData) else Ok(s.value);
  }

  method DoReadableDeposit(b: Cluster, x: Invocation, q: Request) returns (r: Outcome)
    requires q.DepositRequest?
    modifies b`accounts
    ensures Answers(ReadableDeposit(b.chain, old(b.accounts), x, q), old(b.accounts), r, b.accounts)
  {
    hide BorshImage;
    if |x.accounts| < 3 {
      return Fail(NotEnoughAccountKeys);
    }
    var depositor, settlement := x.accounts[0], x.accounts[1];
    if depositor !in x.signers {
      return Fail(MissingRequiredSignature);
    }
    var p := IdAddress(b.chain.derive, q.id);
    if p.Err? || p.value.key != settlement {
      return Fail(InvalidSeeds);
    }
    var a := At(b.accounts, settlement);
    if a.lamports > 0 || |a.data| > 0 {
      return Fail(AccountInUse);
    }
    if q.amount < b.chain.rentFloor {
      return Fail(InsufficientFunds);
    }
    r := b.Create(x.signers, depositor, settlement, q.amount);
    if r.Fail? {
      return;
    }
    var bytes := BorshImage(Deposit(depositor, q.amount, q.commitment, q.unlock, p.value.bump));
    b.accounts := b.accounts[settlement := b.accounts[settlement].(data := bytes)];
  }

  method DoReadableClaim(b: Cluster, x: Invocation, q: Request) returns (r: Outcome)
    requires q.ClaimRequest?
    modifies b`accounts
    ensures Answers(ReadableClaim(b.chain, old(b.accounts), b.now, x, q), old(b.accounts), r, b.accounts)
  {
    hide Sweep, ReadableLoad;
    if |x.accounts| < 2 {
      return Fail(NotEnoughAccountKeys);
    }
    var beneficiary, settlement := x.accounts[0], x.accounts[1];
    if beneficiary !in x.signers {
      return Fail(MissingRequiredSignature);
    }
    var s := Load(b, settlement, q.id);
    if s.Err? {
      return Fail(s.error);
    }
    if b.chain.hash(beneficiary + q.salt) != s.value.commitment {
      return Fail(InvalidArgument);
    }
    if b.now < s.value.unlock {
      return Fail(InvalidArgument);
    }
    r := b.Close(settlement, beneficiary);
  }

  method DoReadableReclaim(b: Cluster, x: Invocation, q: Request) returns (r: Outcome)
    requires q.ReclaimRequest?
    modifies b`accounts
    ensures Answers(ReadableReclaim(b.chain, old(b.accounts), x, q), old(b.accounts), r, b.accounts)
  {
    hide Sweep, ReadableLoad;
    if |x.accounts| < 2 {
      return Fail(NotEnoughAccountKeys);
    }
    var depositor, settlement := x.accounts[0], x.accounts[1];
    if depositor !in x.signers {
      return Fail(MissingRequiredSignature);
    }
    var s := Load(b, settlement, q.id);
    if s.Err? {
      return Fail(s.error);
    }
    if s.value.depositor != depositor {
      return Fail(IllegalOwner);
    }
    r := b.Close(settlement, depositor);
  }

  /** `process` of the readable build. */
  method ReadableProcess(b: Cluster, x: Invocation) returns (r: Outcome)
    modifies b`accounts
    ensures Answers(Readable(b.chain, old(b.accounts), b.now, x), old(b.accounts), r, b.accounts)
  {
    hide ReadableDeposit, ReadableClaim, ReadableReclaim, BorshRequest;
    var q := BorshRequest(x.data);
    if q.None? {
      return Fail(InvalidInstructionData);
    }
    match q.value
    case DepositRequest(_, _, _, _) => r := DoReadableDeposit(b, x, q.value);
    case ClaimRequest(_, _) => r := DoReadableClaim(b, x, q.value);
    case ReclaimRequest(_) => r := DoReadableReclaim(b, x, q.value);
  }
}
