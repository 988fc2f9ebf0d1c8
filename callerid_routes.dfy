/**
 * The caller-ID endpoints: registering a number (which issues a verification
 * code), verifying it with that code, re-issuing the code, editing the
 * description and deleting the number. Each request acts on the requesting
 * user's own caller IDs only.
 *
 * The random draw behind a code (`offset`, see CallerIdModel.CodeFor) and the
 * clock are inputs.
 */
module CallerIdRoutes {
  import opened Util
  import opened Http
  import opened CallerIdModel
  import opened Db
  import CampaignModel

  /** The caller ID with this id belongs to this user (`findOne({_id, user})`). */
  predicate Owned(db: Database, id: Id, user: Id)
    reads db
  {
    id in db.callerIds && db.callerIds[id].user == user
  }

  function OwnedFrame(db: Database, id: Id, user: Id): set<CallerId>
    reads db
  {
    if Owned(db, id, user) then {db.callerIds[id]} else {}
  }

  /** The user already has a caller ID with this number. */
  predicate HasNumber(db: Database, user: Id, phoneNumber: string)
    reads db
  {
    exists k :: k in db.callerIds && db.callerIds[k].phoneNumber == phoneNumber && db.callerIds[k].user == user
  }

  /**
   * Some caller ID, of any user, already stores this number: the unique index
   * on `phoneNumber` refuses a second record with it.
   */
  predicate NumberTaken(db: Database, phoneNumber: string)
    reads db
  {
    exists k :: k in db.callerIds && db.callerIds[k].phoneNumber == phoneNumber
  }

  /**
   * The new record's save passes the schema: the number, trimmed, is not
   * blank (`required`) and no caller ID stores it yet (`unique`).
   */
  predicate NewNumberSaves(db: Database, number: string)
    reads db
  {
    number != "" && !NumberTaken(db, number)
  }

  /** The number of active campaigns calling from this caller ID. */
  function ActiveCampaignsUsing(db: Database, id: Id): nat
    reads db, db.campaigns.Values
  {
    |set k | k in db.campaigns && db.campaigns[k].callerId == id && db.campaigns[k].status == CampaignModel.Active|
  }

  /**
   * POST /caller-ids. Refuses a number the user already has. The schema
   * trims the number, both in the lookup and in the record; a blank number,
   * or one another user already registered, fails the save and is a server
   * error. Otherwise stores a new unverified, active caller ID with a fresh
   * code, valid for an hour from `now`, and returns the code.
   */
  method AddCallerId(db: Database, user: Id, phoneNumber: string, description: string, id: Id,
                     offset: nat, now: int) returns (r: Result<(CallerId, string)>)
    requires offset < 900000
    modifies db`callerIds
    ensures r.Err? ==> db.callerIds == old(db.callerIds)
    ensures old(HasNumber(db, user, Trim(phoneNumber))) ==>
      r == Err(BadRequest("Caller ID already exists for this user"))
    ensures !old(HasNumber(db, user, Trim(phoneNumber))) && !old(NewNumberSaves(db, Trim(phoneNumber))) ==>
      r == Err(ServerError("Error adding caller ID"))
    ensures r.Ok? <==> old(NewNumberSaves(db, Trim(phoneNumber)))
    ensures r.Ok? ==>
      var c := r.value.0;
      var code := r.value.1;
      fresh(c) && db.callerIds == old(db.callerIds)[id := c]
      && c.id == id && c.user == user && c.phoneNumber == Trim(phoneNumber) && c.description == description
      && !c.isVerified && c.isActive
      && code == CodeFor(offset) && |code| == 6
      && (forall t :: c.IsVerificationCodeValid(code, t) <==> t < now + CodeLifetime)
  {
    var number := Trim(phoneNumber);
    if HasNumber(db, user, number) {
      return Err(BadRequest("Caller ID already exists for this user"));
    }
    if !NewNumberSaves(db, number) {
      return Err(ServerError("Error adding caller ID"));
    }
    var callerId, code := Register(db, user, number, description, id, offset, now);
    return Ok((callerId, code));
  }

  /** The new caller ID with its first code, stored under `id`. */
  method Register(db: Database, user: Id, number: string, description: string, id: Id, offset: nat, now: int)
    returns (c: CallerId, code: string)
    requires offset < 900000
    modifies db`callerIds
    ensures fresh(c) && db.callerIds == old(db.callerIds)[id := c]
    ensures c.id == id && c.user == user && c.phoneNumber == number && c.description == description
    ensures !c.isVerified && c.isActive
    ensures code == CodeFor(offset) && |code| == 6
    ensures forall t :: c.IsVerificationCodeValid(code, t) <==> t < now + CodeLifetime
  {
    c := new CallerId(id, user, number, description);
    code := c.GenerateVerificationCode(offset, now);
    db.callerIds := db.callerIds[id := c];
  }

  /**
   * POST /caller-ids/:id/verify. Refuses a caller ID that is already
   * verified, and a code that is wrong or expired, leaving the record as it
   * was; a valid code marks the caller ID verified and clears the code and
   * its expiry, so that no code is accepted afterwards.
   */
  method VerifyCallerId(db: Database, user: Id, id: Id, code: string, now: int) returns (r: Result<CallerId>)
    modifies OwnedFrame(db, id, user)
    ensures !Owned(db, id, user) ==> r == Err(NotFound("Caller ID not found"))
    ensures Owned(db, id, user) ==>
      var c := db.callerIds[id];
      (old(c.isVerified) ==> r == Err(BadRequest("Caller ID is already verified")))
      && (!old(c.isVerified) && !old(c.IsVerificationCodeValid(code, now)) ==>
            r == Err(BadRequest("Invalid or expired verification code")))
      && (r.Ok? <==> !old(c.isVerified) && old(c.IsVerificationCodeValid(code, now)))
      && (r.Err? ==> c.isVerified == old(c.isVerified) && c.verificationCode == old(c.verificationCode)
                     && c.verificationExpires == old(c.verificationExpires))
      && (r.Ok? ==> r.value == c && c.isVerified && c.verificationCode.None? && c.verificationExpires.None?
                    && forall k, t :: !c.IsVerificationCodeValid(k, t))
      && c.description == old(c.description) && c.isActive == old(c.isActive)
  {
    if !Owned(db, id, user) {
      return Err(NotFound("Caller ID not found"));
    }
    var callerId := db.callerIds[id];
    if callerId.isVerified {
      return Err(BadRequest("Caller ID is already verified"));
    }
    if !callerId.IsVerificationCodeValid(code, now) {
      return Err(BadRequest("Invalid or expired verification code"));
    }
    callerId.isVerified := true;
    callerId.verificationCode := None;
    callerId.verificationExpires := None;
    return Ok(callerId);
  }

  /**
   * POST /caller-ids/:id/resend-verification. Refused once the caller ID is
   * verified; otherwise a new code replaces the old one and is valid for an
   * hour from `now`.
   */
  method ResendVerification(db: Database, user: Id, id: Id, offset: nat, now: int) returns (r: Result<string>)
    requires offset < 900000
    modifies OwnedFrame(db, id, user)
    ensures !Owned(db, id, user) ==> r == Err(NotFound("Caller ID not found"))
    ensures Owned(db, id, user) ==>
      var c := db.callerIds[id];
      (r.Ok? <==> !old(c.isVerified))
      && (r.Err? ==> r == Err(BadRequest("Caller ID is already verified"))
                     && c.verificationCode == old(c.verificationCode)
                     && c.verificationExpires == old(c.verificationExpires))
      && (r.Ok? ==> r.value == CodeFor(offset) && c.verificationCode == Some(r.value)
                    && c.verificationExpires == Some(now + CodeLifetime))
      && c.isVerified == old(c.isVerified) && c.description == old(c.description) && c.isActive == old(c.isActive)
  {
    if !Owned(db, id, user) {
      return Err(NotFound("Caller ID not found"));
    }
    var callerId := db.callerIds[id];
    if callerId.isVerified {
      return Err(BadRequest("Caller ID is already verified"));
    }
    var code := callerId.GenerateVerificationCode(offset, now);
    return Ok(code);
  }

  /** PUT /caller-ids/:id: a non-empty description replaces the old one; nothing else changes. */
  method UpdateCallerId(db: Database, user: Id, id: Id, description: string) returns (r: Result<CallerId>)
    modifies OwnedFrame(db, id, user)
    ensures r.Ok? <==> Owned(db, id, user)
    ensures r.Err? ==> r == Err(NotFound("Caller ID not found"))
    ensures Owned(db, id, user) ==>
      var c := db.callerIds[id];
      r.value == c
      && c.description == (if description != "" then description else old(c.description))
      && c.isVerified == old(c.isVerified) && c.isActive == old(c.isActive)
      && c.verificationCode == old(c.verificationCode) && c.verificationExpires == old(c.verificationExpires)
  {
    if !Owned(db, id, user) {
      return Err(NotFound("Caller ID not found"));
    }
    var callerId := db.callerIds[id];
    if description != "" {
      callerId.description := description;
    }
    return Ok(callerId);
  }

  /** DELETE /caller-ids/:id: refused while an active campaign calls from it; otherwise removed. */
  method DeleteCallerId(db: Database, user: Id, id: Id) returns (r: Result<()>)
    modifies db`callerIds
    ensures old(!Owned(db, id, user)) ==> r == Err(NotFound("Caller ID not found"))
    ensures old(Owned(db, id, user)) && old(ActiveCampaignsUsing(db, id)) > 0 ==>
      r == Err(BadRequest("Cannot delete caller ID used in active campaigns"))
    ensures r.Ok? <==> old(Owned(db, id, user)) && old(ActiveCampaignsUsing(db, id)) == 0
    ensures r.Ok? ==> db.callerIds == old(db.callerIds) - {id}
    ensures r.Err? ==> db.callerIds == old(db.callerIds)
  {
    if !Owned(db, id, user) {
      return Err(NotFound("Caller ID not found"));
    }
    if ActiveCampaignsUsing(db, id) > 0 {
      return Err(BadRequest("Cannot delete caller ID used in active campaigns"));
    }
    db.callerIds := db.callerIds - {id};
    return Ok(());
  }
}
