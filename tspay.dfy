/** The webhook signature verifier: `TspayService`.

    HMAC-SHA256 (RFC 2104 over FIPS 180-4 SHA-256) and hexadecimal encoding are
    not modelled; they are the two functions of a `Crypto` value, and every
    property below holds for any choice of them. The clock is the parameter
    `now` (Unix seconds). */
module Tspay {
  import opened Common

  datatype TspayService = TspayService(
    toleranceSeconds: int,
    webhookSecretDeposit: string,
    webhookSecretPayout: string)

  const DefaultToleranceSeconds: int := 300

  /** `NewTspayService`, given what the configuration holds for the tolerance
      (0 when unset) and the two secrets. */
  function NewTspayService(configuredTolerance: int, depositSecret: string, payoutSecret: string): (s: TspayService)
    ensures configuredTolerance == 0 ==> s.toleranceSeconds == DefaultToleranceSeconds
    ensures configuredTolerance != 0 ==> s.toleranceSeconds == configuredTolerance
    ensures s.toleranceSeconds != 0
    ensures s.webhookSecretDeposit == depositSecret && s.webhookSecretPayout == payoutSecret
  {
    var tolerance := if configuredTolerance == 0 then DefaultToleranceSeconds else configuredTolerance;
    TspayService(tolerance, depositSecret, payoutSecret)
  }

  /** The keyed digest (raw bytes as a string) and the lower-case hex encoder. */
  datatype Crypto = Crypto(hmacSha256: (string, string) -> string, hexEncode: string -> string)

  const SignaturePrefix: string := "sha256="

  function Abs(x: int): nat {
    if x < 0 then -x else x
  }

  function SigningSecret(s: TspayService, isDeposit: bool): string {
    if isDeposit then s.webhookSecretDeposit else s.webhookSecretPayout
  }

  /** `fmt.Sprintf("%s.%s", timestamp, string(payload))` */
  function SignedMessage(timestamp: string, payload: string): string {
    timestamp + "." + payload
  }

  function ExpectedSignature(crypto: Crypto, secret: string, message: string): string {
    crypto.hexEncode(crypto.hmacSha256(secret, message))
  }

  /** `VerifyWebhookSignature`. */
  function VerifyWebhookSignature(s: TspayService, isDeposit: bool, payload: string, signature: string,
                                  timestamp: string, now: int, crypto: Crypto): (ok: bool)
    ensures ok ==> Fresh(s, timestamp, now)
    ensures ok ==> ExpectedSignature(crypto, SigningSecret(s, isDeposit), SignedMessage(timestamp, payload))
                   == TrimPrefix(signature, SignaturePrefix)
  {
    var withinWindow := match ParseInt64(timestamp)
      case None => true  // not a number: the tolerance check is skipped
      case Some(webhookTime) => Abs(now - webhookTime) <= s.toleranceSeconds;
    if !withinWindow then false
    else
      var supplied := TrimPrefix(signature, SignaturePrefix);
      var secret := SigningSecret(s, isDeposit);
      var expected := ExpectedSignature(crypto, secret, SignedMessage(timestamp, payload));
      expected == supplied
  }

  /** The freshness rule on its own: a timestamp that does not parse passes, a
      parsed one passes when it is at most `toleranceSeconds` away from `now`. */
  predicate Fresh(s: TspayService, timestamp: string, now: int) {
    ParseInt64(timestamp).None? || Abs(now - ParseInt64(timestamp).value) <= s.toleranceSeconds
  }

  /** Verification accepts exactly when the timestamp is fresh and the hex HMAC of
      `timestamp + "." + payload` under the selected secret equals the supplied
      signature without its `sha256=` prefix. */
  lemma VerifyIff(s: TspayService, isDeposit: bool, payload: string, signature: string,
                  timestamp: string, now: int, crypto: Crypto)
    ensures VerifyWebhookSignature(s, isDeposit, payload, signature, timestamp, now, crypto) <==>
      && Fresh(s, timestamp, now)
      && ExpectedSignature(crypto, SigningSecret(s, isDeposit), SignedMessage(timestamp, payload))
           == TrimPrefix(signature, SignaturePrefix)
  {
  }

  /** A numeric timestamp further than the tolerance from `now` is rejected
      whatever the HMAC and the signature are: the digest is never consulted. */
  lemma StaleTimestampRejected(s: TspayService, isDeposit: bool, payload: string, signature: string,
                               timestamp: string, now: int)
    requires ParseInt64(timestamp).Some? && Abs(now - ParseInt64(timestamp).value) > s.toleranceSeconds
    ensures forall crypto: Crypto :: !VerifyWebhookSignature(s, isDeposit, payload, signature, timestamp, now, crypto)
  {
  }

  /** A difference of exactly the tolerance, in either direction, is still
      inside the window; one second more is outside. */
  lemma ToleranceBoundary(s: TspayService, isDeposit: bool, payload: string, signature: string, ts: int, now: int, crypto: Crypto)
    requires MinInt64 <= ts <= MaxInt64 && s.toleranceSeconds >= 0
    ensures Abs(now - ts) == s.toleranceSeconds ==>
      (VerifyWebhookSignature(s, isDeposit, payload, signature, FormatInt(ts), now, crypto) <==>
       ExpectedSignature(crypto, SigningSecret(s, isDeposit), SignedMessage(FormatInt(ts), payload))
         == TrimPrefix(signature, SignaturePrefix))
    ensures Abs(now - ts) == s.toleranceSeconds + 1 ==>
      !VerifyWebhookSignature(s, isDeposit, payload, signature, FormatInt(ts), now, crypto)
  {
    ParseFormatRoundTrip(ts);
  }

  /** A timestamp that does not parse leaves only the signature comparison. */
  lemma UnparsableTimestampSkipsWindow(s: TspayService, isDeposit: bool, payload: string, signature: string,
                                       timestamp: string, now: int, crypto: Crypto)
    requires ParseInt64(timestamp).None?
    ensures VerifyWebhookSignature(s, isDeposit, payload, signature, timestamp, now, crypto) <==>
      ExpectedSignature(crypto, SigningSecret(s, isDeposit), SignedMessage(timestamp, payload))
        == TrimPrefix(signature, SignaturePrefix)
  {
  }

  /** The signed message carries the timestamp as received: two different
      timestamp strings give different messages for the same payload, even when
      they denote the same number (such as "05" and "5"). */
  lemma SignedMessageKeepsRawTimestamp(t1: string, t2: string, payload: string)
    requires SignedMessage(t1, payload) == SignedMessage(t2, payload)
    ensures t1 == t2
  {
    var m := SignedMessage(t1, payload);
    assert |t1| == |t2|;
    assert t1 == m[..|t1|];
    assert t2 == m[..|t2|];
  }

  /** The payout secret plays no part in deposit verification, and the deposit
      secret none in payout verification. */
  lemma SecretSelection(s: TspayService, other: string, payload: string, signature: string,
                        timestamp: string, now: int, crypto: Crypto)
    ensures VerifyWebhookSignature(s.(webhookSecretPayout := other), true, payload, signature, timestamp, now, crypto)
         == VerifyWebhookSignature(s, true, payload, signature, timestamp, now, crypto)
    ensures VerifyWebhookSignature(s.(webhookSecretDeposit := other), false, payload, signature, timestamp, now, crypto)
         == VerifyWebhookSignature(s, false, payload, signature, timestamp, now, crypto)
  {
  }
}
