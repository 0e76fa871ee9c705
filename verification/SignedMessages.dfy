/** Off-chain signed orders and bids: the exact bytes signed, and the proof that they were. */
module SignedMessages {
  import opened Prelude
  import opened Bytes
  import opened Layout

  // ---- the message ----

  // AXTSWAP:order:1
  const ORDER_DOMAIN: seq<byte> := [65, 88, 84, 83, 87, 65, 80, 58, 111, 114, 100, 101, 114, 58, 49]
  // AXTSWAP:bid:1
  const BID_DOMAIN: seq<byte> := [65, 88, 84, 83, 87, 65, 80, 58, 98, 105, 100, 58, 49]

  datatype Deal = Deal(giveMint: Key, giveAmount: u64, wantMint: Key, wantAmount: u64, taker: Key, expiry: i64,
                       nonce: Key, royaltyMode: byte, makerPct: byte)

  function Terms(t: Deal): (s: seq<byte>)
    ensures |s| == 154
  {
    t.giveMint + U64Bytes(t.giveAmount) + t.wantMint + U64Bytes(t.wantAmount) + t.taker + I64Bytes(t.expiry) + t.nonce
    + [t.royaltyMode, t.makerPct]
  }

  function OrderMessage(t: Deal): seq<byte> { ORDER_DOMAIN + Terms(t) }

  function BidMessage(t: Deal): seq<byte> { BID_DOMAIN + Terms(t) }

  /** Reads the terms back at their fixed positions. */
  function ReadTerms(s: seq<byte>): Deal
    requires |s| == 154
  {
    Deal(s[0..32], U64Of(s[32..40]), s[40..72], U64Of(s[72..80]), s[80..112], I64Of(s[112..120]), s[120..152], s[152],
        s[153])
  }

  lemma TermsReadBack(t: Deal)
    ensures ReadTerms(Terms(t)) == t
  {
    var s := Terms(t);
    assert s[32..40] == U64Bytes(t.giveAmount);
    assert s[72..80] == U64Bytes(t.wantAmount);
    assert s[112..120] == I64Bytes(t.expiry);
    assert s[0..32] == t.giveMint && s[40..72] == t.wantMint && s[80..112] == t.taker && s[120..152] == t.nonce;
  }

  /** A signature over an order or a bid commits to every term and to which of the two it is. */
  lemma MessagesUnambiguous(t: Deal, u: Deal)
    ensures OrderMessage(t) == OrderMessage(u) ==> t == u
    ensures BidMessage(t) == BidMessage(u) ==> t == u
    ensures OrderMessage(t) != BidMessage(u)
  {
    TermsReadBack(t);
    TermsReadBack(u);
    assert OrderMessage(t)[15..] == Terms(t) && OrderMessage(u)[15..] == Terms(u);
    assert BidMessage(t)[13..] == Terms(t) && BidMessage(u)[13..] == Terms(u);
    assert |OrderMessage(t)| == 169 && |BidMessage(u)| == 167;
  }

  // ---- the signature instruction ----

  const PREFIX := 16
  const PK_OFF := 16
  const SIG_OFF := 48
  const MSG_OFF := 112
  const U16_MAX := 0xFFFF

  function U16Bytes(n: nat): (s: seq<byte>)
    requires n <= U16_MAX
    ensures |s| == 2 && LE(s) == n
  {
    Widths();
    ReadBack(n, 2);
    ToLE(n, 2)
  }

  /** One signature, and seven offsets that keep everything inside this instruction. */
  function CanonicalHeader(length: nat): (s: seq<byte>)
    requires length <= U16_MAX
    ensures |s| == PREFIX
  {
    [1, 0] + U16Bytes(SIG_OFF) + U16Bytes(U16_MAX) + U16Bytes(PK_OFF) + U16Bytes(U16_MAX) + U16Bytes(MSG_OFF)
    + U16Bytes(length) + U16Bytes(U16_MAX)
  }

  /** The builder every client uses. */
  function Canonical(signer: Key, signature: seq<byte>, message: seq<byte>): seq<byte>
    requires |message| <= U16_MAX
  {
    CanonicalHeader(|message|) + signer + signature + message
  }

  lemma HeaderFields(length: nat)
    requires length <= U16_MAX
    ensures var h := CanonicalHeader(length);
            && h[0] == 1 && h[1] == 0
            && h[2..4] == U16Bytes(SIG_OFF) && h[4..6] == U16Bytes(U16_MAX)
            && h[6..8] == U16Bytes(PK_OFF) && h[8..10] == U16Bytes(U16_MAX)
            && h[10..12] == U16Bytes(MSG_OFF) && h[12..14] == U16Bytes(length) && h[14..16] == U16Bytes(U16_MAX)
  {
  }

  /** The in-place writes over a zeroed prefix build the canonical header. */
  lemma HeaderIsBuilt(length: nat)
    requires length <= U16_MAX
    ensures var b := [1, 0] + Zeros(14);
            var b := Put(b, 2, U16Bytes(SIG_OFF));
            var b := Put(b, 4, U16Bytes(U16_MAX));
            var b := Put(b, 6, U16Bytes(PK_OFF));
            var b := Put(b, 8, U16Bytes(U16_MAX));
            var b := Put(b, 10, U16Bytes(MSG_OFF));
            var b := Put(b, 12, U16Bytes(length));
            Put(b, 14, U16Bytes(U16_MAX)) == CanonicalHeader(length)
  {
  }

  predicate LayoutOk(data: seq<byte>, signer: Key, message: seq<byte>) {
    && |message| <= U16_MAX
    && |data| == MSG_OFF + |message|
    && data[..PREFIX] == CanonicalHeader(|message|)
    && data[PK_OFF..SIG_OFF] == signer
    && data[MSG_OFF..] == message
  }

  method PutPair(a: array<byte>, at: nat, n: nat)
    requires at + 2 <= a.Length && n <= U16_MAX
    modifies a
    ensures a[..] == Put(old(a[..]), at, U16Bytes(n))
  {
    a[at], a[at + 1] := U16Bytes(n)[0], U16Bytes(n)[1];
  }

  /** The expected prefix, built by in-place writes over a zeroed local array. */
  method ExpectedHeader(length: nat) returns (header: array<byte>)
    requires length <= U16_MAX
    ensures fresh(header) && header[..] == CanonicalHeader(length)
  {
    hide Put, CanonicalHeader, U16Bytes;
    header := new byte[PREFIX](_ => 0);
    header[0], header[1] := 1, 0;
    assert header[..] == [1, 0] + Zeros(14);
    PutPair(header, 2, SIG_OFF);
    PutPair(header, 4, U16_MAX);
    PutPair(header, 6, PK_OFF);
    PutPair(header, 8, U16_MAX);
    PutPair(header, 10, MSG_OFF);
    PutPair(header, 12, length);
    PutPair(header, 14, U16_MAX);
    HeaderIsBuilt(length);
  }

  /** `ed25519_layout_ok`: compare the prefix with the expected one, then the key and the message. */
  method Ed25519LayoutOk(data: seq<byte>, signer: Key, message: seq<byte>) returns (r: Outcome)
    ensures r == if LayoutOk(data, signer, message) then Pass else Fail(InvalidArgument)
  {
    hide CanonicalHeader;
    if |message| > U16_MAX {
      return Fail(InvalidArgument);
    }
    if |data| != MSG_OFF + |message| {
      return Fail(InvalidArgument);
    }
    var header := ExpectedHeader(|message|);
    if data[..PREFIX] != header[..] {
      return Fail(InvalidArgument);
    }
    if data[PK_OFF..PK_OFF + 32] != signer {
      return Fail(InvalidArgument);
    }
    assert data[MSG_OFF..MSG_OFF + |message|] == data[MSG_OFF..];
    if data[MSG_OFF..MSG_OFF + |message|] != message {
      return Fail(InvalidArgument);
    }
    return Pass;
  }

  /** Accepted data is exactly the canonical builder's output for this signer, this message and some signature. */
  lemma AcceptsExactlyCanonical(data: seq<byte>, signer: Key, message: seq<byte>)
    ensures LayoutOk(data, signer, message) <==>
            |message| <= U16_MAX && exists signature: seq<byte> ::
                |signature| == 64 && data == Canonical(signer, signature, message)
  {
    if LayoutOk(data, signer, message) {
      var signature := data[SIG_OFF..MSG_OFF];
      assert data == Canonical(signer, signature, message);
    }
    if |message| <= U16_MAX {
      forall signature: seq<byte> | |signature| == 64 && data == Canonical(signer, signature, message)
        ensures LayoutOk(data, signer, message)
      {
        assert data[..PREFIX] == CanonicalHeader(|message|);
        assert data[PK_OFF..SIG_OFF] == signer;
        assert data[MSG_OFF..] == message;
      }
    }
  }

  // ---- what the native program verified ----

  /** The instruction whose bytes an offset refers to: u16::MAX means the signature instruction itself. */
  function Source(data: seq<byte>, others: seq<seq<byte>>, index: nat): Option<seq<byte>> {
    if index == U16_MAX then Some(data) else if index < |others| then Some(others[index]) else None
  }

  function Slice(data: seq<byte>, others: seq<seq<byte>>, index: nat, off: nat, size: nat): Option<seq<byte>> {
    var s := Source(data, others, index);
    if s.None? || off + size > |s.value| then None else Some(s.value[off..off + size])
  }

  datatype SignedEntry = SignedEntry(signer: Key, signature: seq<byte>, message: seq<byte>)

  /** Signature number i, read by following its seven offsets wherever they lead. */
  function ReadEntry(data: seq<byte>, others: seq<seq<byte>>, i: nat): Option<SignedEntry> {
    var o := 2 + 14 * i;
    if o + 14 > |data| then None else
    var sig := Slice(data, others, LE(data[o + 2..o + 4]), LE(data[o..o + 2]), 64);
    var pk := Slice(data, others, LE(data[o + 6..o + 8]), LE(data[o + 4..o + 6]), 32);
    var msg := Slice(data, others, LE(data[o + 12..o + 14]), LE(data[o + 8..o + 10]), LE(data[o + 10..o + 12]));
    if sig.None? || pk.None? || msg.None? then None else Some(SignedEntry(pk.value, sig.value, msg.value))
  }

  /** On accepted data an offset-following reader finds one signature, by this key, over this message,
      whatever other instructions the transaction carries. */
  lemma AcceptedMeansVerified(data: seq<byte>, others: seq<seq<byte>>, signer: Key, message: seq<byte>)
    requires LayoutOk(data, signer, message)
    ensures data[0] == 1
    ensures ReadEntry(data, others, 0) == Some(SignedEntry(signer, data[SIG_OFF..MSG_OFF], message))
  {
    var h := CanonicalHeader(|message|);
    HeaderFields(|message|);
    assert forall lo, hi :: 0 <= lo <= hi <= PREFIX ==> data[lo..hi] == data[..PREFIX][lo..hi];
    assert data[0] == h[0];
    assert data[2..4] == h[2..4] && data[4..6] == h[4..6] && data[6..8] == h[6..8] && data[8..10] == h[8..10];
    assert data[10..12] == h[10..12] && data[12..14] == h[12..14] && data[14..16] == h[14..16];
    assert Slice(data, others, U16_MAX, SIG_OFF, 64) == Some(data[SIG_OFF..MSG_OFF]);
    assert Slice(data, others, U16_MAX, PK_OFF, 32) == Some(signer);
    assert data[MSG_OFF..MSG_OFF + |message|] == data[MSG_OFF..];
    assert Slice(data, others, U16_MAX, MSG_OFF, |message|) == Some(message);
  }
}
