/** Confirmation attestations: what a decoded token must say, and when (confirmation.py). */
module Confirmation {
  import opened Wrappers
  import opened Models

  const MAX_ATTESTATION_LENGTH: int := 4096
  const MAX_ATTESTATION_ID_LENGTH: int := 128
  const MAX_ISSUER_LENGTH: int := 512
  const MAX_ATTESTATION_LIFETIME_SECONDS: int := 300
  const MAX_CONFIRMATION_AGE_SECONDS: int := 120

  datatype ContractVersion = ConfirmationV1 | OtherVersion(text: string)

  /** The claims of a token whose signature, audience and issuer were accepted; times are whole seconds. */
  datatype Claims = Claims(
    issuer: string, audience: string, version: ContractVersion, subject: string, resolution: string,
    action: ActionKind, actionDigest: Digest, confirmed: bool, issuedAt: int, expiresAt: int, tokenId: string)

  datatype ExpectedConfirmation = ExpectedConfirmation(
    principal: string, resolution: string, action: ActionKind, actionDigest: Digest)

  /** Attestation provenance as it is stored; times are microseconds. */
  datatype Attestation = Attestation(
    version: ContractVersion, issuer: string, attestationId: string, issuedAt: int, expiresAt: int,
    actionDigest: Digest, tokenDigest: Digest)

  /** The verifier's settings. Decoding is a partial function from tokens to claims. */
  datatype Verifier = Verifier(decode: string -> Option<Claims>, issuer: string, audience: string)

  /** Bytes that UTF-8 needs for a text. */
  function Utf8Length(s: string): nat {
    if s == [] then 0
    else
      var n := s[0] as int;
      (if n < 0x80 then 1 else if n < 0x800 then 2 else if n < 0x1_0000 then 3 else 4) + Utf8Length(s[1..])
  }

  /** int() of a timestamp: whole seconds, towards zero. */
  function EpochSeconds(t: int): int {
    if t >= 0 then t / SECOND else -(-t / SECOND)
  }

  /** The time checks, made on whole seconds. */
  predicate InWholeSecondWindow(issuedAt: int, expiresAt: int, now: int) {
    var epoch := EpochSeconds(now);
    && issuedAt <= epoch
    && epoch < expiresAt && issuedAt < expiresAt
    && expiresAt - issuedAt <= MAX_ATTESTATION_LIFETIME_SECONDS
    && epoch - issuedAt <= MAX_CONFIRMATION_AGE_SECONDS
  }

  /** The time checks the store repeats, made on microseconds. */
  predicate InExactWindow(issuedAt: int, expiresAt: int, confirmedAt: int) {
    && issuedAt <= confirmedAt < expiresAt
    && expiresAt - issuedAt <= MAX_ATTESTATION_LIFETIME_SECONDS * SECOND
    && confirmedAt - issuedAt <= MAX_CONFIRMATION_AGE_SECONDS * SECOND
  }

  /** The claims match what this verifier and this action expect. */
  predicate MatchesExpectation(v: Verifier, c: Claims, x: ExpectedConfirmation) {
    && c.issuer == v.issuer
    && c.audience == v.audience
    && c.version == ConfirmationV1
    && c.subject == x.principal
    && c.resolution == x.resolution
    && c.action == x.action
    && c.actionDigest == x.actionDigest
  }

  function VerifyAttestation(v: Verifier, token: string, x: ExpectedConfirmation, now: int): Option<Attestation> {
    if IsBlank(token) || Utf8Length(token) > MAX_ATTESTATION_LENGTH then None
    else
      match v.decode(token)
      case None => None
      case Some(c) =>
        if
          || !c.confirmed
          || !InWholeSecondWindow(c.issuedAt, c.expiresAt, now)
          || c.tokenId == "" || |c.tokenId| > MAX_ATTESTATION_ID_LENGTH
          || !IsHexDigest(c.actionDigest)
          || !MatchesExpectation(v, c, x)
        then None
        else Some(Attestation(ConfirmationV1, v.issuer, c.tokenId, c.issuedAt * SECOND, c.expiresAt * SECOND,
                              c.actionDigest, TokenDigest(token)))
  }

  /**
    The two windows differ only for ages strictly between 120 and 121 seconds: the whole-second window
    of the verifier contains the exact one, and what it admits beyond it the store refuses.
   */
  lemma WindowsDifferByLessThanASecond(issuedAt: int, expiresAt: int, now: int)
    requires 0 <= now
    ensures InExactWindow(issuedAt * SECOND, expiresAt * SECOND, now) ==>
            InWholeSecondWindow(issuedAt, expiresAt, now)
    ensures InWholeSecondWindow(issuedAt, expiresAt, now) ==>
            (InExactWindow(issuedAt * SECOND, expiresAt * SECOND, now) <==>
             !(MAX_CONFIRMATION_AGE_SECONDS * SECOND < now - issuedAt * SECOND
               < (MAX_CONFIRMATION_AGE_SECONDS + 1) * SECOND))
    ensures InWholeSecondWindow(issuedAt, expiresAt, now) ==>
            0 <= now - issuedAt * SECOND < (MAX_CONFIRMATION_AGE_SECONDS + 1) * SECOND
  {
    var epoch := now / SECOND;
    assert epoch * SECOND <= now < (epoch + 1) * SECOND;
  }

  /**
    A token speaks for one action only: whenever it is accepted twice, at whatever times and for whatever
    expectations, the expectations name the same owner, resolution, action and digest.
   */
  lemma TokenSpeaksForOneAction(v: Verifier, token: string, x: ExpectedConfirmation, now: int,
                                y: ExpectedConfirmation, later: int)
    requires VerifyAttestation(v, token, x, now).Some?
    requires VerifyAttestation(v, token, y, later).Some?
    ensures x == y
  {
    var c := v.decode(token).value;
    assert MatchesExpectation(v, c, x) && MatchesExpectation(v, c, y);
  }
}
