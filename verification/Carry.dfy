/** What an instruction asks of the token program, and when that alone decides whether its effects go through. */
module Carry {
  import opened Prelude
  import opened Bytes
  import opened Ledger

  /** One request to the token program: a transfer, a new account, a closing, or a delegation. */
  datatype Touch =
    | Pay(src: Key, mint: Key, dst: Key, auth: Key, amount: nat)
    | Begin(key: Key, mint: Key, owner: Key)
    | Finish(key: Key, auth: Key)
    | Appoint(src: Key, delegate: Option<Key>, auth: Key, amount: nat)

  type Tokens = map<Key, Token>

  /** The accounts after one request, unless the token program refuses it. */
  function Touched(t: Tokens, a: Touch): Option<Tokens> {
    match a
    case Pay(src, mint, dst, auth, amount) =>
      var r := TransferTokens(t, src, mint, dst, auth, amount);
      if r.Ok? then Some(r.value) else None
    case Begin(k, mint, owner) => if k in t then None else Some(t[k := Token(mint, owner, None, 0, 0)])
    case Finish(k, auth) => if k in t && t[k].owner == auth && t[k].amount == 0 then Some(t - {k}) else None
    case Appoint(src, delegate, auth, amount) =>
      if src in t && t[src].owner == auth
      then Some(t[src := t[src].(delegate := delegate, allowance := amount)]) else None
  }

  /** The accounts after a list of requests, each met in turn. */
  function CarryOut(t: Tokens, touches: seq<Touch>): Option<Tokens>
    decreases |touches|
  {
    if touches == [] then Some(t) else
    var u := Touched(t, touches[0]);
    if u.None? then None else CarryOut(u.value, touches[1..])
  }

  lemma {:induction false} CarryAppend(t: Tokens, a: seq<Touch>, b: seq<Touch>)
    ensures CarryOut(t, a + b) == if CarryOut(t, a).None? then None else CarryOut(CarryOut(t, a).value, b)
    decreases |a|
  {
    if a == [] {
      assert a + b == b;
    } else {
      assert (a + b)[1..] == a[1..] + b;
      if Touched(t, a[0]).Some? {
        CarryAppend(Touched(t, a[0]).value, a[1..], b);
      }
    }
  }

  lemma CarryOne(t: Tokens, a: Touch)
    ensures CarryOut(t, [a]) == Touched(t, a)
  {
    hide Touched;
    assert [a][1..] == [];
    if Touched(t, a).Some? {
      assert CarryOut(Touched(t, a).value, []) == Touched(t, a);
    }
  }

  // ---- effects as requests ----

  function TouchOf(op: Op): seq<Touch> {
    match op
    case NewToken(k, mint, owner) => [Begin(k, mint, owner)]
    case Transfer(src, mint, dst, auth, amount) => [Pay(src, mint, dst, auth.key, amount)]
    case CloseToken(k, auth) => [Finish(k, auth.key)]
    case Approve(src, delegate, auth, amount) => [Appoint(src, Some(delegate), auth.key, amount)]
    case Revoke(src, auth) => [Appoint(src, None, auth.key, 0)]
    case _ => []
  }

  function Touches(ops: seq<Op>): seq<Touch> {
    if ops == [] then [] else TouchOf(ops[0]) + Touches(ops[1..])
  }

  lemma {:induction false} TouchesSplit(a: seq<Op>, b: seq<Op>)
    ensures Touches(a + b) == Touches(a) + Touches(b)
  {
    if a == [] {
      assert a + b == b;
    } else {
      assert (a + b)[1..] == a[1..] + b;
      TouchesSplit(a[1..], b);
    }
  }

  /** The transfers among the requests, as the program logs them. */
  function Paid(touches: seq<Touch>): seq<Move> {
    if touches == [] then [] else
    (match touches[0] case Pay(src, mint, dst, auth, amount) => [Move(src, mint, dst, auth, amount)] case _ => [])
    + Paid(touches[1..])
  }

  lemma {:induction false} PaidSplit(a: seq<Touch>, b: seq<Touch>)
    ensures Paid(a + b) == Paid(a) + Paid(b)
  {
    if a == [] {
      assert a + b == b;
    } else {
      assert (a + b)[1..] == a[1..] + b;
      PaidSplit(a[1..], b);
    }
  }

  lemma OnePaid(a: Touch)
    ensures Paid([a]) == if a.Pay? then [Move(a.src, a.mint, a.dst, a.auth, a.amount)] else []
  {
    assert [a][1..] == [];
  }

  lemma OnePays(op: Op)
    ensures Paid(TouchOf(op)) == MoveOf(op)
  {
    if TouchOf(op) != [] {
      OnePaid(TouchOf(op)[0]);
    }
  }

  lemma {:induction false} MovesArePaid(ops: seq<Op>)
    ensures Moves(ops) == Paid(Touches(ops))
  {
    hide TouchOf, MoveOf;
    if ops != [] {
      MovesArePaid(ops[1..]);
      PaidSplit(TouchOf(ops[0]), Touches(ops[1..]));
      OnePays(ops[0]);
    }
  }

  lemma OneTouch(op: Op)
    ensures Touches([op]) == TouchOf(op)
  {
    assert [op][1..] == [];
  }

  /** Everything but the token program's answer: tests that hold, authorities that sign, records of the right size. */
  predicate Sound(e: Env, signers: set<Key>, r: map<Key, seq<byte>>, op: Op) {
    match op
    case Check(ok, _) => ok
    case NewRecord(_, _) => false
    case NewToken(k, mint, _) => k !in r && mint in e.mints
    case Transfer(_, _, _, auth, _) => Signed(e, signers, auth)
    case CloseToken(_, auth) => Signed(e, signers, auth)
    case Approve(_, _, auth, _) => Signed(e, signers, auth)
    case Revoke(_, auth) => Signed(e, signers, auth)
    case Write(k, data) => k in r && |r[k]| == |data|
    case Wipe(k) => k in r
  }

  predicate AllSound(e: Env, signers: set<Key>, r: map<Key, seq<byte>>, ops: seq<Op>) {
    forall op :: op in ops ==> Sound(e, signers, r, op)
  }

  lemma BothSound(e: Env, signers: set<Key>, r: map<Key, seq<byte>>, a: seq<Op>, b: seq<Op>)
    ensures AllSound(e, signers, r, a + b) <==> AllSound(e, signers, r, a) && AllSound(e, signers, r, b)
  {
    hide Sound;
    assert forall op :: op in a || op in b ==> op in a + b;
  }

  predicate SameSizes(r: map<Key, seq<byte>>, q: map<Key, seq<byte>>) {
    r.Keys == q.Keys && forall k :: k in r ==> |r[k]| == |q[k]|
  }

  lemma SoundAlike(e: Env, signers: set<Key>, r: map<Key, seq<byte>>, q: map<Key, seq<byte>>, ops: seq<Op>)
    requires SameSizes(r, q)
    ensures AllSound(e, signers, r, ops) <==> AllSound(e, signers, q, ops)
  {
    hide Signed;
    forall op | op in ops
      ensures Sound(e, signers, r, op) <==> Sound(e, signers, q, op)
    {
      assert forall k :: k in r <==> k in q;
    }
  }

  lemma ApplyByTouch(e: Env, signers: set<Key>, w: World, op: Op)
    requires !op.NewRecord?
    ensures var v := Apply(e, signers, w, op);
            && (v.Ok? <==> Sound(e, signers, w.records, op) && CarryOut(w.tokens, TouchOf(op)).Some?)
            && (v.Ok? ==> Some(v.value.tokens) == CarryOut(w.tokens, TouchOf(op))
                          && SameSizes(w.records, v.value.records))
  {
    hide Signed, TransferTokens;
    if TouchOf(op) != [] {
      CarryOne(w.tokens, TouchOf(op)[0]);
    }
  }

  lemma NothingAsked(t: Tokens)
    ensures CarryOut(t, []) == Some(t)
  {
  }

  /** A list of effects that creates no record is accepted exactly when every one is sound and the token program
      carries out what they ask; the token accounts afterwards are what it left, and the log grows by what was paid. */
  lemma {:induction false} ExecByCarry(e: Env, signers: set<Key>, w: World, ops: seq<Op>)
    requires forall op :: op in ops ==> !op.NewRecord?
    ensures var v := Exec(e, signers, w, ops);
            && (v.Ok? <==> AllSound(e, signers, w.records, ops) && CarryOut(w.tokens, Touches(ops)).Some?)
            && (v.Ok? ==> Some(v.value.tokens) == CarryOut(w.tokens, Touches(ops))
                          && v.value.log == w.log + Paid(Touches(ops)))
    decreases |ops|
  {
    hide Sound, Apply, TouchOf, CarryOut, Paid;
    if Exec(e, signers, w, ops).Ok? {
      ExecRecords(e, signers, w, ops);
      MovesArePaid(ops);
    }
    if ops == [] {
      NothingAsked(w.tokens);
    } else {
      var op, rest := ops[0], ops[1..];
      assert ops == [op] + rest;
      BothSound(e, signers, w.records, [op], rest);
      assert AllSound(e, signers, w.records, [op]) <==> Sound(e, signers, w.records, op) by {
        assert op in [op];
      }
      ApplyByTouch(e, signers, w, op);
      CarryAppend(w.tokens, TouchOf(op), Touches(rest));
      if Apply(e, signers, w, op).Ok? {
        var v := Apply(e, signers, w, op).value;
        ExecByCarry(e, signers, v, rest);
        SoundAlike(e, signers, w.records, v.records, rest);
      }
    }
  }

  /** With a record created first: its address must be free, and then the rest decides. */
  lemma CreateThen(e: Env, signers: set<Key>, w: World, k: Key, n: nat, ops: seq<Op>)
    requires forall op :: op in ops ==> !op.NewRecord?
    ensures var v := Exec(e, signers, w, [NewRecord(k, n)] + ops);
            && (v.Ok? <==> && k !in w.records && k !in w.tokens
                           && AllSound(e, signers, w.records[k := Zeros(n)], ops)
                           && CarryOut(w.tokens, Touches(ops)).Some?)
            && (v.Ok? ==> Some(v.value.tokens) == CarryOut(w.tokens, Touches(ops))
                          && v.value.log == w.log + Paid(Touches(ops)))
  {
    hide AllSound, CarryOut, Paid;
    assert ([NewRecord(k, n)] + ops)[1..] == ops;
    if k !in w.records && k !in w.tokens {
      ExecByCarry(e, signers, w.(records := w.records[k := Zeros(n)]), ops);
    }
  }

  lemma Cons(e: Env, signers: set<Key>, r: map<Key, seq<byte>>, op: Op, rest: seq<Op>)
    ensures AllSound(e, signers, r, [op] + rest) <==> (Sound(e, signers, r, op) && AllSound(e, signers, r, rest))
    ensures Touches([op] + rest) == TouchOf(op) + Touches(rest)
  {
    hide Sound;
    BothSound(e, signers, r, [op], rest);
    assert op in [op];
    TouchesSplit([op], rest);
    OneTouch(op);
  }

  lemma Nil(e: Env, signers: set<Key>, r: map<Key, seq<byte>>)
    ensures AllSound(e, signers, r, []) && Touches([]) == []
  {
  }
}
