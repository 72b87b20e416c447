/**
 The webhook gate: base16 decoding (section 8 of RFC 4648), comparison with the MAC of the received bytes
 (section 2 of RFC 2104, kept uninterpreted), then the payment callback.
 */
module Webhook {
  import opened Domain
  import opened Database
  import opened Serial
  import opened Promises
  import Services

  /** The MAC of a payload under a key, and the JSON parse of a payload into reference and status. */
  datatype Crypto = Crypto(mac: (Bytes, Bytes) -> Bytes, parse: Bytes -> Option<(string, string)>)

  // ----- Base16 -----

  function Nibble(c: char): Option<nat>
    ensures Nibble(c).Some? ==> Nibble(c).value < 16
  {
    if '0' <= c <= '9' then Some((c - '0') as nat)
    else if 'a' <= c <= 'f' then Some((c - 'a') as nat + 10)
    else if 'A' <= c <= 'F' then Some((c - 'A') as nat + 10)
    else None
  }

  /** hex.DecodeString: pairs of digits in either case; an odd length or a stray character is an error. */
  function Decode(s: string): Option<Bytes> {
    if s == [] then Some([])
    else if |s| == 1 then None
    else
      match (Nibble(s[0]), Nibble(s[1]), Decode(s[2..]))
      case (Some(h), Some(l), Some(rest)) => Some([(h * 16 + l) as byte] + rest)
      case _ => None
  }

  const DIGITS: string := "0123456789abcdef"

  /** hex.EncodeToString: lower-case digits. */
  function Encode(b: Bytes): string {
    if b == [] then "" else [DIGITS[b[0] as int / 16], DIGITS[b[0] as int % 16]] + Encode(b[1..])
  }

  function Lower(c: char): char {
    if 'A' <= c <= 'F' then 'a' + (c - 'A') else c
  }

  /** The same hex digits up to letter case. */
  predicate CaseVariant(s: string, t: string) {
    |s| == |t| && forall i :: 0 <= i < |s| ==> Nibble(s[i]).Some? && Lower(s[i]) == Lower(t[i])
  }

  lemma NibbleOfDigit(n: nat)
    requires n < 16
    ensures Nibble(DIGITS[n]) == Some(n) && Lower(DIGITS[n]) == DIGITS[n]
  {
  }

  /** The sixteen digits, in either case; nothing else is one. */
  lemma NibbleTable(c: char)
    ensures Nibble(c) ==
      if c in "0123456789" then Some((c - '0') as nat)
      else if c in "abcdef" then Some(10 + (c - 'a') as nat)
      else if c in "ABCDEF" then Some(10 + (c - 'A') as nat)
      else None
  {
  }

  lemma DigitOfNibble(c: char)
    requires Nibble(c).Some?
    ensures DIGITS[Nibble(c).value] == Lower(c)
  {
  }

  lemma {:induction false} EncodeLength(b: Bytes)
    ensures |Encode(b)| == 2 * |b|
  {
    if b != [] { EncodeLength(b[1..]); }
  }

  /** Decoding inverts encoding, for all byte strings. */
  lemma {:induction false} DecodeEncode(b: Bytes)
    ensures Decode(Encode(b)) == Some(b)
  {
    if b != [] {
      DecodeEncode(b[1..]);
      var n := b[0] as int;
      NibbleOfDigit(n / 16);
      NibbleOfDigit(n % 16);
      assert Encode(b)[2..] == Encode(b[1..]);
      assert [b[0]] + b[1..] == b;
    }
  }

  lemma DigitsInjective()
    ensures forall i, j :: 0 <= i < 16 && 0 <= j < 16 && DIGITS[i] == DIGITS[j] ==> i == j
  {
    forall i, j | 0 <= i < 16 && 0 <= j < 16 && DIGITS[i] == DIGITS[j] ensures i == j {
      NibbleOfDigit(i);
      NibbleOfDigit(j);
    }
  }

  /** A character reads as k exactly when it is the digit for k up to case. */
  lemma NibbleMatches(c: char, k: nat)
    requires k < 16
    ensures Nibble(c) == Some(k) <==> Nibble(c).Some? && Lower(c) == Lower(DIGITS[k])
  {
    NibbleOfDigit(k);
    if Nibble(c).Some? {
      DigitOfNibble(c);
      DigitsInjective();
    }
  }

  lemma DecodeCons(s: string, b: Bytes)
    requires |s| >= 2 && b != []
    ensures Decode(s) == Some(b) <==>
      Nibble(s[0]) == Some(b[0] as int / 16) && Nibble(s[1]) == Some(b[0] as int % 16) && Decode(s[2..]) == Some(b[1..])
  {
    assert b == [b[0]] + b[1..];
    if Decode(s).Some? {
      var h, l := Nibble(s[0]).value, Nibble(s[1]).value;
      assert Decode(s).value == [(h * 16 + l) as byte] + Decode(s[2..]).value;
      assert Decode(s).value[1..] == Decode(s[2..]).value;
    }
  }

  /** What decodes to some bytes is their encoding up to letter case, and nothing else does. */
  lemma {:induction false} DecodesToIff(s: string, b: Bytes)
    ensures Decode(s) == Some(b) <==> CaseVariant(s, Encode(b))
    decreases |s|
  {
    EncodeLength(b);
    if |s| < 2 {
      assert CaseVariant(s, Encode(b)) <==> s == [] && b == [];
    } else if b == [] {
      assert Decode(s).Some? ==> Decode(s).value != [];
    } else {
      var e := Encode(b);
      assert e[0] == DIGITS[b[0] as int / 16] && e[1] == DIGITS[b[0] as int % 16] && e[2..] == Encode(b[1..]);
      DecodeCons(s, b);
      CaseVariantCons(s, e);
      NibbleMatches(s[0], b[0] as int / 16);
      NibbleMatches(s[1], b[0] as int % 16);
      DecodesToIff(s[2..], b[1..]);
    }
  }

  lemma CaseVariantCons(s: string, t: string)
    requires |s| >= 2 && |t| >= 2
    ensures CaseVariant(s, t) <==>
      && Nibble(s[0]).Some? && Lower(s[0]) == Lower(t[0]) && Nibble(s[1]).Some? && Lower(s[1]) == Lower(t[1])
      && CaseVariant(s[2..], t[2..])
  {
    if CaseVariant(s[2..], t[2..]) {
      forall i | 2 <= i < |s| && |s| == |t| ensures Nibble(s[i]).Some? && Lower(s[i]) == Lower(t[i]) {
        assert s[i] == s[2..][i - 2] && t[i] == t[2..][i - 2];
      }
    }
  }

  // ----- The verifier -----

  /** HMACSignatureVerifier.Verify: None accepts. */
  function Verify(crypto: Crypto, secret: Bytes, payload: Bytes, signature: string): Option<Error> {
    if signature == "" then Some(InvalidSignature)
    else
      match Decode(signature)
      case None => Some(InvalidSignature)
      case Some(provided) => if provided == crypto.mac(secret, payload) then None else Some(InvalidSignature)
  }

  /** The signatures accepted for a payload are exactly the letter-case variants of the hex MAC of its very bytes. */
  lemma AcceptedSignatures(crypto: Crypto, secret: Bytes, payload: Bytes, signature: string)
    requires |crypto.mac(secret, payload)| == 32
    ensures Verify(crypto, secret, payload, signature).None? <==>
      CaseVariant(signature, Encode(crypto.mac(secret, payload)))
    ensures Verify(crypto, secret, payload, signature).None? ==> |signature| == 64
  {
    DecodesToIff(signature, crypto.mac(secret, payload));
    EncodeLength(crypto.mac(secret, payload));
  }

  /** The payload-independent case: an encoded MAC is accepted as it stands. */
  lemma SignedIsAccepted(crypto: Crypto, secret: Bytes, payload: Bytes)
    requires |crypto.mac(secret, payload)| == 32
    ensures Verify(crypto, secret, payload, Encode(crypto.mac(secret, payload))).None?
  {
    DecodeEncode(crypto.mac(secret, payload));
    EncodeLength(crypto.mac(secret, payload));
  }

  /** The gate in front of the callback: signature, then shape, then status. */
  function Admit(crypto: Crypto, secret: Bytes, payload: Bytes, signature: string): Result<(string, string)> {
    match Verify(crypto, secret, payload, signature)
    case Some(e) => Err(e)
    case None =>
      match crypto.parse(payload)
      case None => Err(InvalidRequest)
      case Some((reference, status)) =>
        if reference == "" then Err(InvalidRequest)
        else if status != "paid" && status != "failed" then Err(InvalidStatus)
        else Ok((reference, status))
  }

  /** What a delivery does to the rows, for the row its reference finds. */
  function Delivered(crypto: Crypto, secret: Bytes, db: Db, payload: Bytes, signature: string, pick: Option<Id>,
                     sc: CallScript): (Db, Result<()>) {
    match Admit(crypto, secret, payload, signature)
    case Err(e) => (db, Err(e))
    case Ok((_, status)) =>
      var (db', r) := Callback(db, pick, status, sc);
      (db', match r case Ok(_) => Ok(()) case Err(e) => Err(e))
  }

  // ----- What a delivery answers -----

  /** The message names a payment and one of the two verdicts. */
  predicate Means(crypto: Crypto, payload: Bytes, reference: string, status: string) {
    && crypto.parse(payload) == Some((reference, status))
    && reference != "" && (status == "paid" || status == "failed")
  }

  /**
   The answer of a delivery from signature, message and rows alone. The payment `pick` is one that carries the
   reference; a provider is told of a callback's error and nothing of its payment.
   */
  ghost predicate AnswersDelivery(crypto: Crypto, secret: Bytes, db: Db, db': Db, payload: Bytes, signature: string,
                                  pick: Option<Id>, sc: CallScript, r: Result<()>) {
    if !CaseVariant(signature, Encode(crypto.mac(secret, payload))) then r == Err(InvalidSignature) && db' == db
    else
      match crypto.parse(payload)
      case None => r == Err(InvalidRequest) && db' == db
      case Some((reference, status)) =>
        if reference == "" then r == Err(InvalidRequest) && db' == db
        else if status != "paid" && status != "failed" then r == Err(InvalidStatus) && db' == db
        else
          exists shown ::
            && AppliesVerdict(db, db', pick, status, sc, shown)
            && (match shown case Ok(_) => r == Ok(()) case Err(e) => r == Err(e))
  }

  lemma DeliveryPromise(crypto: Crypto, secret: Bytes, db: Db, payload: Bytes, signature: string, pick: Option<Id>,
                        sc: CallScript)
    requires |crypto.mac(secret, payload)| == 32
    ensures var (db', r) := Delivered(crypto, secret, db, payload, signature, pick, sc);
      AnswersDelivery(crypto, secret, db, db', payload, signature, pick, sc, r)
  {
    AcceptedSignatures(crypto, secret, payload, signature);
    match Admit(crypto, secret, payload, signature) {
      case Ok((_, status)) =>
        CallbackPromise(db, pick, status, sc);
        assert AppliesVerdict(db, Callback(db, pick, status, sc).0, pick, status, sc, Callback(db, pick, status, sc).1);
      case Err(_) =>
    }
  }

  /** The answer to a fault-free delivery, case by case. */
  lemma CleanDelivery(crypto: Crypto, secret: Bytes, db: Db, payload: Bytes, signature: string, pick: Option<Id>)
    requires |crypto.mac(secret, payload)| == 32
    requires forall reference, status :: Means(crypto, payload, reference, status) ==> Picks(db, reference, pick)
    requires forall pid :: pid in db.payments ==> db.payments[pid].oid in db.orders
    ensures var r := Delivered(crypto, secret, db, payload, signature, pick, CALL_CLEAN).1;
      var signed := CaseVariant(signature, Encode(crypto.mac(secret, payload)));
      var parsed := crypto.parse(payload);
      && (r == Err(InvalidSignature) <==> !signed)
      && (r == Err(InvalidRequest) <==> signed && (parsed.None? || parsed.value.0 == ""))
      && (r == Err(InvalidStatus) <==>
            && signed && parsed.Some? && parsed.value.0 != ""
            && parsed.value.1 != "paid" && parsed.value.1 != "failed")
      && (r == Err(PaymentNotFound) <==>
            && signed && parsed.Some? && Means(crypto, payload, parsed.value.0, parsed.value.1)
            && forall pid :: pid in db.payments ==> db.payments[pid].reference != parsed.value.0)
      && (r == Err(InvalidStatusTransition) <==>
            && signed && parsed.Some? && Means(crypto, payload, parsed.value.0, parsed.value.1)
            && pick.Some? && pick.value in db.payments && db.payments[pick.value].reference == parsed.value.0
            && db.payments[pick.value].status == Settled(if parsed.value.1 == "paid" then VFailed else VPaid))
      && (r == Ok(()) <==>
            && signed && parsed.Some? && Means(crypto, payload, parsed.value.0, parsed.value.1)
            && pick.Some? && pick.value in db.payments && db.payments[pick.value].reference == parsed.value.0
            && db.payments[pick.value].status != Settled(if parsed.value.1 == "paid" then VFailed else VPaid))
  {
    DeliveryPromise(crypto, secret, db, payload, signature, pick, CALL_CLEAN);
    if crypto.parse(payload).Some? {
      var (reference, status) := crypto.parse(payload).value;
      if Means(crypto, payload, reference, status) {
        assert Picks(db, reference, pick);
        forall db', shown: Result<Receipt> | AppliesVerdict(db, db', pick, status, CALL_CLEAN, shown)
          ensures CleanlyApplied(db, reference, status, pick, shown)
        {
          CleanVerdict(db, db', reference, status, pick, shown);
        }
      }
    }
  }

  /** A fault-free callback is answered by the row it finds. */
  ghost predicate CleanlyApplied(db: Db, reference: string, status: string, pick: Option<Id>, shown: Result<Receipt>) {
    if forall pid :: pid in db.payments ==> db.payments[pid].reference != reference then shown == Err(PaymentNotFound)
    else
      && pick.Some? && pick.value in db.payments && db.payments[pick.value].reference == reference
      && if db.payments[pick.value].status == Settled(if status == "paid" then VFailed else VPaid)
         then shown == Err(InvalidStatusTransition)
         else shown.Ok?
  }

  lemma CleanVerdict(db: Db, db': Db, reference: string, status: string, pick: Option<Id>, shown: Result<Receipt>)
    requires (status == "paid" || status == "failed") && Picks(db, reference, pick)
    requires forall pid :: pid in db.payments ==> db.payments[pid].oid in db.orders
    requires AppliesVerdict(db, db', pick, status, CALL_CLEAN, shown)
    ensures CleanlyApplied(db, reference, status, pick, shown)
  {
    if pick.Some? {
      var st := db.payments[pick.value].status;
      assert st.Unsettled? || st.verdict.VPaid? || st.verdict.VFailed?;
    }
  }

  /**
   Under any faults a delivery answered with success leaves the payment found with the verdict sent; and if
   it was pending, both rows were written and nothing else.
   */
  lemma OkMeansApplied(crypto: Crypto, secret: Bytes, db: Db, payload: Bytes, signature: string, pick: Option<Id>,
                       sc: CallScript)
    requires |crypto.mac(secret, payload)| == 32
    requires Delivered(crypto, secret, db, payload, signature, pick, sc).1.Ok?
    ensures var db' := Delivered(crypto, secret, db, payload, signature, pick, sc).0;
      var parsed := crypto.parse(payload);
      && parsed.Some? && Means(crypto, payload, parsed.value.0, parsed.value.1)
      && pick.Some? && pick.value in db.payments
      && var v := if parsed.value.1 == "paid" then VPaid else VFailed;
         var p := db.payments[pick.value];
         var closed := if parsed.value.1 == "paid" then Paid else PaymentFailed;
         && pick.value in db'.payments && db'.payments[pick.value].status == Settled(v)
         && (p.status == Unsettled ==>
               && p.oid in db.orders
               && db' == db.(payments := db.payments[pick.value := p.(status := Settled(v))],
                             orders := db.orders[p.oid := db.orders[p.oid].(status := closed)]))
         && (p.status != Unsettled ==> db' == db)
  {
    DeliveryPromise(crypto, secret, db, payload, signature, pick, sc);
  }

  class Service {
    const payments: Services.PaymentService
    const crypto: Crypto
    const secret: Bytes

    constructor (payments: Services.PaymentService, crypto: Crypto, secret: Bytes)
      ensures this.payments == payments && this.crypto == crypto && this.secret == secret
    {
      this.payments, this.crypto, this.secret := payments, crypto, secret;
    }

    method Process(payload: Bytes, signature: string, sc: CallScript) returns (r: Result<()>, ghost pick: Option<Id>)
      modifies payments.repo
      ensures Admit(crypto, secret, payload, signature).Ok? ==>
        Picks(old(payments.repo.View()), Admit(crypto, secret, payload, signature).value.0, pick)
      ensures (payments.repo.View(), r) ==
        Delivered(crypto, secret, old(payments.repo.View()), payload, signature, pick, sc)
      ensures |crypto.mac(secret, payload)| == 32 ==>
        AnswersDelivery(crypto, secret, old(payments.repo.View()), payments.repo.View(), payload, signature, pick,
                        sc, r)
    {
      if |crypto.mac(secret, payload)| == 32 {
        forall pick { DeliveryPromise(crypto, secret, payments.repo.View(), payload, signature, pick, sc); }
      }
      pick := None;
      var refused := Verify(crypto, secret, payload, signature);
      if refused.Some? { return Err(refused.value), pick; }
      var req := crypto.parse(payload);
      if req.None? || req.value.0 == "" { return Err(InvalidRequest), pick; }
      if req.value.1 != "paid" && req.value.1 != "failed" { return Err(InvalidStatus), pick; }
      var applied;
      applied, pick := payments.ApplyProviderCallback(req.value.0, req.value.1, sc);
      r := if applied.Ok? then Ok(()) else Err(applied.error);
    }
  }

  /**
   A delivery changes a row only if its signature is a letter-case variant of the hex MAC of exactly the
   bytes received, they parse to a verdict, and the payment found is still pending; without faults such a
   delivery does change it.
   */
  lemma Gate(crypto: Crypto, secret: Bytes, db: Db, payload: Bytes, signature: string, pick: Option<Id>, sc: CallScript)
    requires |crypto.mac(secret, payload)| == 32
    ensures var db' := Delivered(crypto, secret, db, payload, signature, pick, sc).0;
      db' != db ==>
        && CaseVariant(signature, Encode(crypto.mac(secret, payload)))
        && crypto.parse(payload).Some? && ParseVerdict(crypto.parse(payload).value.1).Some?
        && pick.Some? && pick.value in db.payments && db.payments[pick.value].status == Unsettled
    ensures sc == CALL_CLEAN && CaseVariant(signature, Encode(crypto.mac(secret, payload)))
        && crypto.parse(payload).Some? && crypto.parse(payload).value.0 != ""
        && ParseVerdict(crypto.parse(payload).value.1).Some?
        && pick.Some? && pick.value in db.payments && db.payments[pick.value].status == Unsettled
      ==> Delivered(crypto, secret, db, payload, signature, pick, sc).0 != db
  {
    AcceptedSignatures(crypto, secret, payload, signature);
    var parsed := crypto.parse(payload);
    if pick.Some? && pick.value in db.payments && parsed.Some? && ParseVerdict(parsed.value.1).Some? {
      var p := ReceiptOf(pick.value, db.payments[pick.value]);
      var v := ParseVerdict(crypto.parse(payload).value.1).value;
      assert SettleBoth(db, p, v, CALL_CLEAN).0.payments[pick.value].status == Settled(v);
    }
  }
}
