/**
 * The user-management endpoints: creation by an administrator, profile
 * update by the user or an administrator, deletion, and the administrator's
 * credit top-up.
 *
 * Text fields the client leaves out are "" (the handlers test them for
 * truthiness); credits and the active flag are compared with `undefined`,
 * so they are optional values here. Passwords and their hashing are not
 * part of this model.
 */
module UserRoutes {
  import opened Util
  import opened Http
  import opened UserModel
  import opened Db
  import BillingModel
  import BillingRoutes

  // ---------------------------------------------------------------------------
  // Creation
  // ---------------------------------------------------------------------------

  datatype NewUserRequest = NewUserRequest(
    name: string, username: string, email: string, phoneNumber: string, address: string,
    role: string, credits: Option<int>)

  /** Some user already has this email or this username. */
  predicate Taken(db: Database, email: string, username: string)
    reads db, db.users.Values
  {
    exists k :: k in db.users && (db.users[k].email == email || db.users[k].username == username)
  }

  /**
   * POST /users (administrators only). Refuses an email or username that is
   * taken; otherwise stores a new active user whose role defaults to "user"
   * and whose credits default to 0.
   */
  method CreateUser(db: Database, req: NewUserRequest, id: Id) returns (r: Result<User>)
    modifies db`users
    ensures old(Taken(db, req.email, req.username)) ==>
      r == Err(BadRequest("User already exists with this email or username")) && db.users == old(db.users)
    ensures r.Ok? <==> !old(Taken(db, req.email, req.username))
    ensures r.Ok? ==>
      var u := r.value;
      fresh(u) && db.users == old(db.users)[id := u]
      && u.id == id && u.name == req.name && u.username == req.username && u.email == req.email
      && u.phoneNumber == req.phoneNumber && u.address == req.address
      && u.role == (if req.role != "" then req.role else UserRole)
      && u.credits == (if req.credits.Some? then req.credits.value else 0)
      && u.isActive
  {
    if Taken(db, req.email, req.username) {
      return Err(BadRequest("User already exists with this email or username"));
    }
    var role := if req.role != "" then req.role else UserRole;
    var credits := if req.credits.Some? then req.credits.value else 0;
    var u := new User(id, req.name, req.username, req.email, req.phoneNumber, req.address, role, credits, true);
    db.users := db.users[id := u];
    return Ok(u);
  }

  // ---------------------------------------------------------------------------
  // Update
  // ---------------------------------------------------------------------------

  datatype UserUpdate = UserUpdate(
    name: string, email: string, phoneNumber: string, address: string, role: string,
    credits: Option<int>, isActive: Option<bool>)

  /** The fields of a user an update may change. */
  datatype Profile = Profile(
    name: string, email: string, phoneNumber: string, address: string, role: string,
    credits: int, isActive: bool)

  function ProfileOf(u: User): Profile
    reads u
  {
    Profile(u.name, u.email, u.phoneNumber, u.address, u.role, u.credits, u.isActive)
  }

  /**
   * The profile after an update: name, phone and address are overwritten by
   * the non-empty values given; email and role likewise but only by an
   * administrator; credits and the active flag by an administrator whenever
   * they are given at all, 0 and false included.
   */
  function Updated(p: Profile, req: UserUpdate, isAdmin: bool): Profile
  {
    Profile(
      if req.name != "" then req.name else p.name,
      if req.email != "" && isAdmin then req.email else p.email,
      if req.phoneNumber != "" then req.phoneNumber else p.phoneNumber,
      if req.address != "" then req.address else p.address,
      if req.role != "" && isAdmin then req.role else p.role,
      if req.credits.Some? && isAdmin then req.credits.value else p.credits,
      if req.isActive.Some? && isAdmin then req.isActive.value else p.isActive)
  }

  /**
   * Only an administrator changes email, role, credits or the active flag;
   * an administrator can set credits to 0 and deactivate a user; empty text
   * never overwrites anything.
   */
  lemma UpdateAuthorisation(p: Profile, req: UserUpdate, isAdmin: bool)
    ensures var q := Updated(p, req, isAdmin);
      (!isAdmin ==> q.email == p.email && q.role == p.role && q.credits == p.credits && q.isActive == p.isActive)
      && (isAdmin && req.credits == Some(0) ==> q.credits == 0)
      && (isAdmin && req.isActive == Some(false) ==> !q.isActive)
      && (req.name == "" ==> q.name == p.name)
      && (req.phoneNumber == "" ==> q.phoneNumber == p.phoneNumber)
      && (req.address == "" ==> q.address == p.address)
  {
  }

  /** Applying the same update twice is the same as applying it once. */
  lemma UpdateIdempotent(p: Profile, req: UserUpdate, isAdmin: bool)
    ensures Updated(Updated(p, req, isAdmin), req, isAdmin) == Updated(p, req, isAdmin)
  {
  }

  /**
   * PUT /users/:id. Forbidden unless the requester is that user or an
   * administrator; a missing user is not found; otherwise the profile becomes
   * the updated profile.
   */
  method UpdateUser(db: Database, requester: Id, isAdmin: bool, id: Id, req: UserUpdate) returns (r: Result<User>)
    modifies db.UserFrame(id)
    ensures id != requester && !isAdmin ==> r == Err(Forbidden)
    ensures (id == requester || isAdmin) && id !in db.users ==> r == Err(NotFound("User not found"))
    ensures r.Ok? <==> (id == requester || isAdmin) && id in db.users
    ensures id in db.users ==>
      var u := db.users[id];
      (r.Ok? ==> r.value == u && ProfileOf(u) == Updated(old(ProfileOf(u)), req, isAdmin))
      && (r.Err? ==> ProfileOf(u) == old(ProfileOf(u)))
  {
    if id != requester && !isAdmin {
      return Err(Forbidden);
    }
    if id !in db.users {
      return Err(NotFound("User not found"));
    }
    var user := db.users[id];
    ApplyUpdate(user, req, isAdmin);
    return Ok(user);
  }

  /** The field assignments of the update, on the user found. */
  method ApplyUpdate(user: User, req: UserUpdate, isAdmin: bool)
    modifies user
    ensures ProfileOf(user) == Updated(old(ProfileOf(user)), req, isAdmin)
  {
    ApplyContactFields(user, req);
    if isAdmin {
      ApplyAdminFields(user, req);
    }
  }

  /** Name, phone and address: overwritten by the non-empty values given. */
  method ApplyContactFields(user: User, req: UserUpdate)
    modifies user
    ensures user.name == (if req.name != "" then req.name else old(user.name))
    ensures user.phoneNumber == (if req.phoneNumber != "" then req.phoneNumber else old(user.phoneNumber))
    ensures user.address == (if req.address != "" then req.address else old(user.address))
    ensures user.email == old(user.email) && user.role == old(user.role)
    ensures user.credits == old(user.credits) && user.isActive == old(user.isActive)
  {
    if req.name != "" { user.name := req.name; }
    if req.phoneNumber != "" { user.phoneNumber := req.phoneNumber; }
    if req.address != "" { user.address := req.address; }
  }

  /** Email and role when non-empty, credits and the active flag whenever given. */
  method ApplyAdminFields(user: User, req: UserUpdate)
    modifies user
    ensures user.email == (if req.email != "" then req.email else old(user.email))
    ensures user.role == (if req.role != "" then req.role else old(user.role))
    ensures user.credits == (if req.credits.Some? then req.credits.value else old(user.credits))
    ensures user.isActive == (if req.isActive.Some? then req.isActive.value else old(user.isActive))
    ensures user.name == old(user.name) && user.phoneNumber == old(user.phoneNumber)
    ensures user.address == old(user.address)
  {
    if req.email != "" { user.email := req.email; }
    if req.role != "" { user.role := req.role; }
    if req.credits.Some? { user.credits := req.credits.value; }
    if req.isActive.Some? { user.isActive := req.isActive.value; }
  }

  // ---------------------------------------------------------------------------
  // Deletion
  // ---------------------------------------------------------------------------

  /** DELETE /users/:id (administrators only): refused while the user has an active campaign. */
  method DeleteUser(db: Database, id: Id) returns (r: Result<()>)
    modifies db`users
    ensures old(id !in db.users) ==> r == Err(NotFound("User not found"))
    ensures old(id in db.users) && old(db.ActiveCampaignsOf(id)) > 0 ==>
      r == Err(BadRequest("Cannot delete user with active campaigns"))
    ensures r.Ok? <==> old(id in db.users) && old(db.ActiveCampaignsOf(id)) == 0
    ensures r.Ok? ==> db.users == old(db.users) - {id}
    ensures r.Err? ==> db.users == old(db.users)
  {
    if id !in db.users {
      return Err(NotFound("User not found"));
    }
    if db.ActiveCampaignsOf(id) > 0 {
      return Err(BadRequest("Cannot delete user with active campaigns"));
    }
    db.users := db.users - {id};
    return Ok(());
  }

  // ---------------------------------------------------------------------------
  // Credit top-up
  // ---------------------------------------------------------------------------

  /**
   * POST /users/:id/credits (administrators only). A missing, zero or
   * negative amount is refused, as is a missing user. Otherwise the amount is
   * added to the user's credits and a completed credit record paid by the
   * system is written, described as given or as added by an administrator:
   * the ledger accounts for exactly the change in the balance.
   */
  method TopUp(db: Database, id: Id, amount: int, description: string, billingId: Id)
    returns (r: Result<BillingModel.Billing>)
    modifies db`ledger, db.UserFrame(id)
    ensures amount <= 0 ==> r == Err(BadRequest("Invalid credit amount"))
    ensures amount > 0 && id !in db.users ==> r == Err(NotFound("User not found"))
    ensures r.Ok? <==> amount > 0 && id in db.users
    ensures r.Err? ==> db.ledger == old(db.ledger)
    ensures r.Err? && id in db.users ==> db.users[id].credits == old(db.users[id].credits)
    ensures r.Ok? ==>
      var u := db.users[id];
      r.value == BillingRoutes.CreditRecord(billingId, id, amount,
                                            if description != "" then description else "Credits added by admin",
                                            BillingModel.SystemPayment)
      && db.ledger == old(db.ledger) + [r.value]
      && u.credits == old(u.credits) + amount
      && u.credits - BillingRoutes.Net(db.ledger, id) == old(u.credits - BillingRoutes.Net(db.ledger, id))
  {
    if amount <= 0 {
      return Err(BadRequest("Invalid credit amount"));
    }
    if id !in db.users {
      return Err(NotFound("User not found"));
    }
    var user := db.users[id];
    user.credits := user.credits + amount;
    var billing := BillingRoutes.CreditRecord(billingId, id, amount,
                                              if description != "" then description else "Credits added by admin",
                                              BillingModel.SystemPayment);
    db.ledger := db.ledger + [billing];
    BillingRoutes.NetAppend(old(db.ledger), billing, id);
    return Ok(billing);
  }
}
