/** The settlement program in its two builds: one by hand offsets (lean), one by Borsh structs (readable). */
module Settlement {
  import opened Prelude
  import opened Bytes
  import opened Layout
  import opened Seeds

  // ---- the chain as this program sees it ----

  datatype Account = Account(lamports: nat, owner: Key, data: seq<byte>)

  type Accounts = map<Key, Account>

  /** The program's own id, its derivation table, SHA-256, and the rent floor of an 81-byte account. */
  datatype Chain = Chain(program: Key, derive: Derivations, hash: seq<byte> -> Key, rentFloor: nat)

  datatype Invocation = Invocation(accounts: seq<Key>, signers: set<Key>, data: seq<byte>)

  const SEED: seq<byte> := [101, 115, 99, 114, 111, 119]   // escrow
  const STATE_LEN := 81
  const NOBODY := Account(0, ZERO, [])

  /** An address nobody has funded reads as an empty system account. */
  function At(a: Accounts, k: Key): Account {
    if k in a then a[k] else NOBODY
  }

  function IdPreimage(id: Key, bump: byte): seq<byte> { SEED + id + [bump] }

  function IdFrom(t: Derivations, id: Key, bump: byte): (r: Option<Pda>)
    ensures r.Some? ==> IdPreimage(id, r.value.bump) in t && t[IdPreimage(id, r.value.bump)] == r.value.key
  {
    if IdPreimage(id, bump) in t then Some(Pda(t[IdPreimage(id, bump)], bump))
    else if bump == 0 then None
    else IdFrom(t, id, bump - 1)
  }

  /** `find_program_address([SEED, settlement_id])`. */
  function IdAddress(t: Derivations, id: Key): (r: Result<Pda>)
    ensures r.Ok? ==> IdPreimage(id, r.value.bump) in t && t[IdPreimage(id, r.value.bump)] == r.value.key
  {
    var p := IdFrom(t, id, 255);
    if p.Some? then Ok(p.value) else Err(InvalidSeeds)
  }

  /** `create_account`, signed for the new address: the address must be unfunded, the payer a plain system
      account that signed and can pay, and the amount must clear the rent floor. */
  function CreateAccount(c: Chain, a: Accounts, signers: set<Key>, payer: Key, to: Key,
      lamports: nat): Result<Accounts> {
    if payer !in signers then Err(MissingRequiredSignature) else
    :- Need(At(a, to) == NOBODY, AccountInUse);
    :- Need(At(a, payer).owner == ZERO && At(a, payer).data == [], InvalidArgument);
    :- Need(lamports <= At(a, payer).lamports && c.rentFloor <= lamports, InsufficientFunds);
    Ok(a[payer := At(a, payer).(lamports := At(a, payer).lamports - lamports)][to :=
        Account(lamports, c.program, Zeros(STATE_LEN))])
  }

  /** `close`: every lamport moves to `dest`, the data is wiped. Both builds share it. */
  function Sweep(a: Accounts, account: Key, dest: Key): Result<Accounts> {
    var amount := At(a, account).lamports;
    :- Need(At(a, dest).lamports + amount < U64, ArithmeticOverflow);
    var paid := a[dest := At(a, dest).(lamports := At(a, dest).lamports + amount)];
    Ok(paid[account := Account(0, At(a, account).owner, Zeros(|At(a, account).data|))])
  }

  // ---- the stored record ----

  datatype Deposit = Deposit(depositor: Key, amount: u64, commitment: Key, unlock: i64, bump: byte)

  const O_DEPOSITOR := 0
  const O_AMOUNT := 32
  const O_COMMIT := 40
  const O_UNLOCK := 72
  const O_BUMP := 80

  /** The lean build's five in-place writes over the zeroed account. */
  function LeanImage(d: Deposit): (s: seq<byte>)
    ensures |s| == STATE_LEN
  {
    var s := Zeros(STATE_LEN);
    var s := Put(s, O_DEPOSITOR, d.depositor);
    var s := Put(s, O_AMOUNT, U64Bytes(d.amount));
    var s := Put(s, O_COMMIT, d.commitment);
    var s := Put(s, O_UNLOCK, I64Bytes(d.unlock));
    Put(s, O_BUMP, [d.bump])
  }

  /** The readable build's Borsh encoding: the fields in declaration order. */
  function BorshImage(d: Deposit): (s: seq<byte>)
    ensures |s| == STATE_LEN
  {
    d.depositor + U64Bytes(d.amount) + d.commitment + I64Bytes(d.unlock) + [d.bump]
  }

  /** Both builds write the same 81 bytes. */
  lemma BuildsWriteAlike(d: Deposit)
    ensures LeanImage(d) == BorshImage(d)
  {
    var s := LeanImage(d);
    assert s[O_BUMP..O_BUMP + 1] == [d.bump];
    assert s == s[0..32] + s[32..40] + s[40..72] + s[72..80] + s[80..81];
  }

  // A Borsh decoder takes each field off the front and refuses leftovers.

  function TakeKey(s: seq<byte>): Option<(Key, seq<byte>)> {
    if |s| < 32 then None else Some((s[..32], s[32..]))
  }

  function TakeU64(s: seq<byte>): Option<(u64, seq<byte>)> {
    if |s| < 8 then None else Some((U64Of(s[..8]), s[8..]))
  }

  function TakeI64(s: seq<byte>): Option<(i64, seq<byte>)> {
    if |s| < 8 then None else Some((I64Of(s[..8]), s[8..]))
  }

  /** A `Vec<u8>`: a 32-bit length, then that many bytes. */
  function TakeVec(s: seq<byte>): Option<(seq<byte>, seq<byte>)> {
    if |s| < 4 || |s| < 4 + LE(s[..4]) then None else Some((s[4..4 + LE(s[..4])], s[4 + LE(s[..4])..]))
  }

  /** `Settlement::try_from_slice`. */
  function BorshRead(s: seq<byte>): Option<Deposit> {
    var depositor := TakeKey(s);
    if depositor.None? then None else
    var amount := TakeU64(depositor.value.1);
    if amount.None? then None else
    var commitment := TakeKey(amount.value.1);
    if commitment.None? then None else
    var unlock := TakeI64(commitment.value.1);
    if unlock.None? then None else
    var tail := unlock.value.1;
    if |tail| != 1 then None else
    Some(Deposit(depositor.value.0, amount.value.0, commitment.value.0, unlock.value.0, tail[0]))
  }

  /** What the offset reads of the lean build see. */
  function LeanRead(s: seq<byte>): Deposit
    requires |s| == STATE_LEN
  {
    Deposit(KeyAt(s, O_DEPOSITOR), U64At(s, O_AMOUNT), KeyAt(s, O_COMMIT), I64At(s, O_UNLOCK), s[O_BUMP])
  }

  /** Borsh accepts exactly the 81-byte records, and reads in them what the offsets read. */
  lemma BuildsReadAlike(s: seq<byte>)
    ensures BorshRead(s).Some? <==> |s| == STATE_LEN
    ensures |s| == STATE_LEN ==> BorshRead(s) == Some(LeanRead(s))
  {
    if |s| >= 80 {
      assert s[32..][..8] == s[32..40] && s[32..][8..] == s[40..];
      assert s[40..][..32] == s[40..72] && s[40..][32..] == s[72..];
      assert s[72..][..8] == s[72..80] && s[72..][8..] == s[80..];
    }
  }

  lemma DepositReadsBack(d: Deposit)
    ensures LeanRead(LeanImage(d)) == d
  {
    var s := LeanImage(d);
    assert s[O_BUMP..O_BUMP + 1] == [d.bump];
  }

  // ---- the instruction bytes ----

  datatype Request =
    | DepositRequest(id: Key, amount: u64, commitment: Key, unlock: i64)
    | ClaimRequest(id: Key, salt: seq<byte>)
    | ReclaimRequest(id: Key)

  /** `SettlementInstruction::try_from_slice`. */
  function BorshRequest(d: seq<byte>): Option<Request> {
    if d == [] then None else
    var id := TakeKey(d[1..]);
    if id.None? then None else
    var rest := id.value.1;
    if d[0] == 0 then
      var amount := TakeU64(rest);
      if amount.None? then None else
      var commitment := TakeKey(amount.value.1);
      if commitment.None? then None else
      var unlock := TakeI64(commitment.value.1);
      if unlock.None? || unlock.value.1 != [] then None else
      Some(DepositRequest(id.value.0, amount.value.0, commitment.value.0, unlock.value.0))
    else if d[0] == 1 then
      var salt := TakeVec(rest);
      if salt.None? || salt.value.1 != [] then None else Some(ClaimRequest(id.value.0, salt.value.0))
    else if d[0] == 2 then
      if rest != [] then None else Some(ReclaimRequest(id.value.0))
    else None
  }

  // ---- the readable build ----

  /** `load`. */
  function ReadableLoad(c: Chain, a: Accounts, settlement: Key, id: Key): Result<Deposit> {
    var p :- IdAddress(c.derive, id);
    :- Need(p.key == settlement, InvalidSeeds);
    :- Need(At(a, settlement).owner == c.program, IllegalOwner);
    var s := BorshRead(At(a, settlement).data);
    if s.None? then Err(InvalidAccountData) else Ok(s.value)
  }

  function ReadableDeposit(c: Chain, a: Accounts, x: Invocation, q: Request): Result<Accounts>
    requires q.DepositRequest?
  {
    if |x.accounts| < 3 then Err(NotEnoughAccountKeys) else
    var depositor, settlement := x.accounts[0], x.accounts[1];
    :- Need(depositor in x.signers, MissingRequiredSignature);
    var p :- IdAddress(c.derive, q.id);
    :- Need(p.key == settlement, InvalidSeeds);
    :- Need(At(a, settlement).lamports == 0 && At(a, settlement).data == [], AccountInUse);
    :- Need(c.rentFloor <= q.amount, InsufficientFunds);
    var b :- CreateAccount(c, a, x.signers, depositor, settlement, q.amount);
    Ok(b[settlement := b[settlement].(data := BorshImage(Deposit(depositor, q.amount, q.commitment, q.unlock,
        p.bump)))])
  }

  function ReadableClaim(c: Chain, a: Accounts, now: int, x: Invocation, q: Request): Result<Accounts>
    requires q.ClaimRequest?
  {
    if |x.accounts| < 2 then Err(NotEnoughAccountKeys) else
    var beneficiary, settlement := x.accounts[0], x.accounts[1];
    :- Need(beneficiary in x.signers, MissingRequiredSignature);
    var s :- ReadableLoad(c, a, settlement, q.id);
    :- Need(c.hash(beneficiary + q.salt) == s.commitment, InvalidArgument);
    :- Need(s.unlock <= now, InvalidArgument);
    Sweep(a, settlement, beneficiary)
  }

  function ReadableReclaim(c: Chain, a: Accounts, x: Invocation, q: Request): Result<Accounts>
    requires q.ReclaimRequest?
  {
    if |x.accounts| < 2 then Err(NotEnoughAccountKeys) else
    var depositor, settlement := x.accounts[0], x.accounts[1];
    :- Need(depositor in x.signers, MissingRequiredSignature);
    var s :- ReadableLoad(c, a, settlement, q.id);
    :- Need(s.depositor == depositor, IllegalOwner);
    Sweep(a, settlement, depositor)
  }

  function Readable(c: Chain, a: Accounts, now: int, x: Invocation): Result<Accounts> {
    var q := BorshRequest(x.data);
    if q.None? then Err(InvalidInstructionData) else
    match q.value
    case DepositRequest(_, _, _, _) => ReadableDeposit(c, a, x, q.value)
    case ClaimRequest(_, _) => ReadableClaim(c, a, now, x, q.value)
    case ReclaimRequest(_) => ReadableReclaim(c, a, x, q.value)
  }

  // ---- the lean build ----

  /** `verify_pda`. */
  function VerifyPda(c: Chain, a: Accounts, settlement: Key, id: Key): Result<Pda> {
    var p :- IdAddress(c.derive, id);
    :- Need(p.key == settlement, InvalidSeeds);
    :- Need(At(a, settlement).owner == c.program, IllegalOwner);
    Ok(p)
  }

  function LeanDeposit(c: Chain, a: Accounts, x: Invocation, d: seq<byte>): Result<Accounts> {
    if |d| != 80 then Err(InvalidInstructionData) else
    :- Need(|x.accounts| == 3, NotEnoughAccountKeys);
    var depositor, settlement := x.accounts[0], x.accounts[1];
    :- Need(depositor in x.signers, MissingRequiredSignature);
    var p :- IdAddress(c.derive, KeyAt(d, 0));
    :- Need(p.key == settlement, InvalidSeeds);
    var b :- CreateAccount(c, a, x.signers, depositor, settlement, U64At(d, 32));
    Ok(b[settlement := b[settlement].(data := LeanImage(Deposit(depositor, U64At(d, 32), KeyAt(d, 40), I64At(d, 72),
        p.bump)))])
  }

  /** The salt a claim payload carries; bytes after it are ignored. */
  function LeanSalt(d: seq<byte>): Option<seq<byte>> {
    if |d| < 36 || |d| < 36 + LE(d[32..36]) then None else Some(d[36..36 + LE(d[32..36])])
  }

  /** A record too short for an offset makes the read panic, which refuses the instruction. */
  function LeanClaim(c: Chain, a: Accounts, now: int, x: Invocation, d: seq<byte>): Result<Accounts> {
    var salt := LeanSalt(d);
    :- Need(salt.Some?, InvalidInstructionData);
    :- Need(|x.accounts| == 2, NotEnoughAccountKeys);
    var beneficiary, settlement := x.accounts[0], x.accounts[1];
    :- Need(beneficiary in x.signers, MissingRequiredSignature);
    var p :- VerifyPda(c, a, settlement, KeyAt(d, 0));
    var s := At(a, settlement).data;
    :- Need(|s| >= 80, InvalidAccountData);
    :- Need(c.hash(beneficiary + salt.value) == KeyAt(s, O_COMMIT), InvalidArgument);
    :- Need(I64At(s, O_UNLOCK) <= now, InvalidArgument);
    Sweep(a, settlement, beneficiary)
  }

  function LeanReclaim(c: Chain, a: Accounts, x: Invocation, d: seq<byte>): Result<Accounts> {
    if |d| != 32 then Err(InvalidInstructionData) else
    :- Need(|x.accounts| == 2, NotEnoughAccountKeys);
    var depositor, settlement := x.accounts[0], x.accounts[1];
    :- Need(depositor in x.signers, MissingRequiredSignature);
    var p :- VerifyPda(c, a, settlement, KeyAt(d, 0));
    var s := At(a, settlement).data;
    :- Need(|s| >= 32, InvalidAccountData);
    :- Need(KeyAt(s, O_DEPOSITOR) == depositor, IllegalOwner);
    Sweep(a, settlement, depositor)
  }

  function Lean(c: Chain, a: Accounts, now: int, x: Invocation): Result<Accounts> {
    if x.data == [] then Err(InvalidInstructionData) else
    var d := x.data[1..];
    if x.data[0] == 0 then LeanDeposit(c, a, x, d)
    else if x.data[0] == 1 then LeanClaim(c, a, now, x, d)
    else if x.data[0] == 2 then LeanReclaim(c, a, x, d)
    else Err(InvalidInstructionData)
  }

  // ---- the two builds agree ----

  /** The number of accounts the instruction lists: three for a deposit, two otherwise. */
  predicate ListedAccounts(x: Invocation) {
    x.data != [] ==> |x.accounts| == if x.data[0] == 0 then 3 else 2
  }

  /** A claim payload ends with its salt. */
  predicate NothingAfterSalt(x: Invocation) {
    x.data != [] && x.data[0] == 1 && |x.data| >= 37 ==> |x.data| <= 37 + LE(x.data[33..37])
  }

  /** Every account of the program holds one record. */
  predicate WellSized(c: Chain, a: Accounts) {
    forall k :: k in a && a[k].owner == c.program ==> |a[k].data| == STATE_LEN
  }

  lemma RequestFields(data: seq<byte>)
    requires data != []
    ensures var d := data[1..];
            && (data[0] == 0 ==> (BorshRequest(data).Some? <==> |d| == 80))
            && (data[0] == 0 && |d| == 80 ==>
                BorshRequest(data) == Some(DepositRequest(KeyAt(d, 0), U64At(d, 32), KeyAt(d, 40), I64At(d, 72))))
            && (data[0] == 2 ==> (BorshRequest(data).Some? <==> |d| == 32))
            && (data[0] == 2 && |d| == 32 ==> BorshRequest(data) == Some(ReclaimRequest(KeyAt(d, 0))))
            && (data[0] > 2 ==> BorshRequest(data).None?)
  {
    var d := data[1..];
    if |d| >= 32 {
      assert d[0..32] == d[..32];
      var rest := d[32..];
      if |d| >= 72 {
        assert rest[..8] == d[32..40] && rest[8..] == d[40..];
        assert d[40..][..32] == d[40..72] && d[40..][32..] == d[72..];
      }
      if |d| >= 80 {
        assert d[72..][..8] == d[72..80] && d[72..][8..] == d[80..];
      }
    }
  }

  lemma ClaimFields(data: seq<byte>)
    requires data != [] && data[0] == 1
    ensures var d := data[1..];
            && (BorshRequest(data).Some? <==> LeanSalt(d).Some? && |d| == 36 + LE(d[32..36]))
            && (BorshRequest(data).Some? ==> BorshRequest(data) == Some(ClaimRequest(KeyAt(d, 0), LeanSalt(d).value)))
            && (|data| >= 37 ==> data[33..37] == d[32..36])
  {
    var d := data[1..];
    if |d| >= 36 {
      assert d[0..32] == d[..32];
      var rest := d[32..];
      assert rest[..4] == d[32..36];
      var n := LE(d[32..36]);
      if |d| >= 36 + n {
        assert rest[4..4 + n] == d[36..36 + n] && rest[4 + n..] == d[36 + n..];
      }
    }
  }

  lemma DepositsAgree(c: Chain, a: Accounts, now: int, x: Invocation)
    requires x.data != [] && x.data[0] == 0 && |x.accounts| == 3
    ensures Readable(c, a, now, x).Ok? <==> Lean(c, a, now, x).Ok?
    ensures Readable(c, a, now, x).Ok? ==> Lean(c, a, now, x) == Readable(c, a, now, x)
  {
    hide IdAddress, LeanImage, BorshImage, BorshRequest;
    RequestFields(x.data);
    var d := x.data[1..];
    if |d| == 80 && IdAddress(c.derive, KeyAt(d, 0)).Ok? {
      BuildsWriteAlike(Deposit(x.accounts[0], U64At(d, 32), KeyAt(d, 40), I64At(d, 72),
          IdAddress(c.derive, KeyAt(d, 0)).value.bump));
    }
  }

  lemma ReclaimsAgree(c: Chain, a: Accounts, now: int, x: Invocation)
    requires x.data != [] && x.data[0] == 2 && |x.accounts| == 2
    ensures Readable(c, a, now, x).Ok? ==> Lean(c, a, now, x) == Readable(c, a, now, x)
    ensures WellSized(c, a) && Lean(c, a, now, x).Ok? ==> Readable(c, a, now, x).Ok?
  {
    hide IdAddress, BorshRead, BorshRequest, Sweep;
    RequestFields(x.data);
    BuildsReadAlike(At(a, x.accounts[1]).data);
  }

  lemma ClaimsAgree(c: Chain, a: Accounts, now: int, x: Invocation)
    requires x.data != [] && x.data[0] == 1 && |x.accounts| == 2
    ensures Readable(c, a, now, x).Ok? ==> Lean(c, a, now, x) == Readable(c, a, now, x) && NothingAfterSalt(x)
    ensures WellSized(c, a) && Lean(c, a, now, x).Ok? && NothingAfterSalt(x) ==> Readable(c, a, now, x).Ok?
  {
    hide IdAddress, BorshRead, BorshRequest, Sweep;
    ClaimFields(x.data);
    BuildsReadAlike(At(a, x.accounts[1]).data);
  }

  lemma UnknownTags(c: Chain, a: Accounts, now: int, x: Invocation)
    requires x.data == [] || x.data[0] > 2
    ensures Readable(c, a, now, x).Err? && Lean(c, a, now, x).Err?
  {
    if x.data != [] {
      RequestFields(x.data);
    }
  }

  /** On any state, given exactly the listed accounts, whatever the readable build accepts the lean build
      accepts, with the same accounts afterwards. */
  lemma LeanRefinesReadable(c: Chain, a: Accounts, now: int, x: Invocation)
    requires ListedAccounts(x) && Readable(c, a, now, x).Ok?
    ensures Lean(c, a, now, x) == Readable(c, a, now, x)
  {
    hide Lean, Readable;
    if x.data == [] || x.data[0] > 2 { UnknownTags(c, a, now, x); }
    else if x.data[0] == 0 { DepositsAgree(c, a, now, x); }
    else if x.data[0] == 1 { ClaimsAgree(c, a, now, x); }
    else { ReclaimsAgree(c, a, now, x); }
  }

  /** Conversely, where every record is whole, what the lean build accepts the readable build accepts
      exactly when a claim payload has nothing after its salt. */
  lemma ReadableAgreesWithoutTrailingBytes(c: Chain, a: Accounts, now: int, x: Invocation)
    requires ListedAccounts(x) && WellSized(c, a) && Lean(c, a, now, x).Ok?
    ensures Readable(c, a, now, x).Ok? <==> NothingAfterSalt(x)
    ensures NothingAfterSalt(x) ==> Readable(c, a, now, x) == Lean(c, a, now, x)
  {
    hide Lean, Readable;
    if x.data == [] || x.data[0] > 2 { UnknownTags(c, a, now, x); }
    else if x.data[0] == 0 { DepositsAgree(c, a, now, x); }
    else if x.data[0] == 1 { ClaimsAgree(c, a, now, x); }
    else { ReclaimsAgree(c, a, now, x); }
  }

  /** The builds do differ: a claim the readable build accepts, with one byte appended, is refused by it and
      still accepted by the lean build with the same effect. */
  lemma TrailingBytesSplitTheBuilds(c: Chain, a: Accounts, now: int, x: Invocation, extra: byte)
    requires |x.accounts| == 2 && x.data != [] && x.data[0] == 1 && WellSized(c, a) && Readable(c, a, now, x).Ok?
    ensures var y := x.(data := x.data + [extra]);
            Readable(c, a, now, y).Err? && Lean(c, a, now, y) == Lean(c, a, now, x)
  {
    hide IdAddress, BorshRead, BorshRequest, Sweep, Readable;
    var y := x.(data := x.data + [extra]);
    ClaimsAgree(c, a, now, x);
    ClaimsAgree(c, a, now, y);
    var d, f := x.data[1..], y.data[1..];
    assert f == d + [extra];
    assert f[32..36] == d[32..36];
    assert KeyAt(f, 0) == KeyAt(d, 0);
    assert LeanSalt(d).Some?;
    var n := LE(d[32..36]);
    assert f[36..36 + n] == d[36..36 + n];
    ClaimFields(y.data);
    ClaimFields(x.data);
  }
}
