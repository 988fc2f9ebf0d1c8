/**
 * The CallerId record: a phone number a user places calls from, verified by a
 * six-digit code that expires an hour after it is issued.
 */
module CallerIdModel {
  import opened Util

  /** How long a verification code stays valid, in milliseconds. */
  const CodeLifetime: int := 3600000

  /**
   * The code issued for a draw of Math.random: floor(100000 + r * 900000)
   * written in decimal, where offset = floor(r * 900000) lies in [0, 900000).
   */
  function CodeFor(offset: nat): (code: string)
    requires offset < 900000
    ensures |code| == 6 && IsDigits(code)
    ensures 100000 <= ParseDigits(code) <= 999999 && ParseDigits(code) == 100000 + offset
  {
    NatToStringLength(100000 + offset, 5);
    ParseNatToString(100000 + offset);
    NatToString(100000 + offset)
  }

  /** Different draws give different codes. */
  lemma CodeForInjective(a: nat, b: nat)
    requires a < 900000 && b < 900000 && CodeFor(a) == CodeFor(b)
    ensures a == b
  {
  }

  /** isVerificationCodeValid: the code equals the stored one, and the expiry is still ahead. */
  predicate CodeValid(stored: Option<string>, expires: Option<int>, code: string, now: int)
  {
    stored == Some(code) && expires.Some? && expires.value > now
  }

  /** A code issued at `issued` is accepted strictly before the hour is up, and never from then on. */
  lemma IssuedCodeLifetime(offset: nat, issued: int, now: int)
    requires offset < 900000
    ensures CodeValid(Some(CodeFor(offset)), Some(issued + CodeLifetime), CodeFor(offset), now)
      <==> now < issued + CodeLifetime
  {
  }

  /** Once expired, no code at all is accepted; nor is any after the code is cleared. */
  lemma NoCodeAfterExpiry(stored: Option<string>, expires: int, code: string, now: int)
    ensures now >= expires ==> !CodeValid(stored, Some(expires), code, now)
    ensures !CodeValid(None, Some(expires), code, now) && !CodeValid(stored, None, code, now)
  {
  }

  class CallerId {
    const id: Id
    const user: Id
    const phoneNumber: string
    var description: string
    var isVerified: bool
    var isActive: bool
    var verificationCode: Option<string>
    var verificationExpires: Option<int>

    /** A new caller ID: not verified, active, with no code issued. */
    constructor (id: Id, user: Id, phoneNumber: string, description: string)
      ensures this.id == id && this.user == user && this.phoneNumber == phoneNumber
      ensures this.description == description
      ensures !isVerified && isActive
      ensures verificationCode.None? && verificationExpires.None?
    {
      this.id := id;
      this.user := user;
      this.phoneNumber := phoneNumber;
      this.description := description;
      isVerified := false;
      isActive := true;
      verificationCode := None;
      verificationExpires := None;
    }

    /** generateVerificationCode: stores a fresh six-digit code and its expiry, and returns the code. */
    method GenerateVerificationCode(offset: nat, now: int) returns (code: string)
      requires offset < 900000
      modifies this`verificationCode, this`verificationExpires
      ensures code == CodeFor(offset)
      ensures verificationCode == Some(code) && verificationExpires == Some(now + CodeLifetime)
    {
      code := CodeFor(offset);
      verificationCode := Some(code);
      verificationExpires := Some(now + CodeLifetime);
    }

    /** isVerificationCodeValid */
    function IsVerificationCodeValid(code: string, now: int): bool
      reads this
    {
      CodeValid(verificationCode, verificationExpires, code, now)
    }
  }
}
