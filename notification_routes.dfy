/**
 * The notification endpoints: creation by an administrator, which validates
 * the request and builds the recipient list, marking one notification read
 * for the requesting user, and deletion.
 *
 * The active users a global notification goes to are the result of the user
 * query, passed in the order the query returns them.
 */
module NotificationRoutes {
  import opened Util
  import opened Http
  import opened NotificationModel
  import opened Db

  /**
   * The body of a creation request. `kind` is None when the body's type is
   * missing or empty; `recipients` is None when the body's recipients are
   * missing or not an array.
   */
  datatype CreateRequest = CreateRequest(
    title: string, message: string, kind: Option<NotificationType>,
    recipients: Option<seq<Id>>, isGlobal: bool)

  /** The fields of the notification a valid request creates. */
  datatype Draft = Draft(
    title: string, message: string, kind: NotificationType, sender: Id,
    isGlobal: bool, recipients: seq<Recipient>)

  /** One unread entry per user, in the order given. */
  function UnreadAll(users: seq<Id>): (r: seq<Recipient>)
    ensures |r| == |users|
    ensures forall k :: 0 <= k < |r| ==> r[k] == Unread(users[k])
  {
    seq(|users|, k requires 0 <= k < |users| => Unread(users[k]))
  }

  /**
   * What the schema's validation asks of a notification as it would be
   * stored: a title and a message (each after its `trim` setter) and a user
   * on every recipient entry.
   */
  predicate DraftSaves(d: Draft)
  {
    d.title != "" && d.message != "" && forall k :: 0 <= k < |d.recipients| ==> d.recipients[k].user != ""
  }

  /** The users a request addresses: every active user for a global notification, else the ids given. */
  function Addressees(req: CreateRequest, activeUsers: seq<Id>): seq<Id>
  {
    if req.isGlobal then activeUsers else if req.recipients.Some? then req.recipients.value else []
  }

  /** Every id of the list is present. */
  predicate AllPresent(users: seq<Id>)
  {
    forall k :: 0 <= k < |users| ==> users[k] != ""
  }

  /** The request names its recipients: it is global, or it lists at least one id. */
  predicate Addressed(req: CreateRequest)
  {
    req.isGlobal || (req.recipients.Some? && req.recipients.value != [])
  }

  /**
   * The notification the handler builds: title and message trimmed by the
   * schema's setters, the type or info, and one unread entry per addressee.
   */
  function DraftOf(req: CreateRequest, sender: Id, activeUsers: seq<Id>): (d: Draft)
    ensures d.title == Trim(req.title) && d.message == Trim(req.message)
    ensures d.sender == sender && d.isGlobal == req.isGlobal
    ensures d.kind == (if req.kind.Some? then req.kind.value else Info)
    ensures |d.recipients| == |Addressees(req, activeUsers)|
    ensures forall k :: 0 <= k < |d.recipients| ==> d.recipients[k] == Unread(Addressees(req, activeUsers)[k])
    ensures DraftSaves(d) <==> d.title != "" && d.message != "" && AllPresent(Addressees(req, activeUsers))
  {
    var users := Addressees(req, activeUsers);
    var d := Draft(Trim(req.title), Trim(req.message), if req.kind.Some? then req.kind.value else Info,
                   sender, req.isGlobal, UnreadAll(users));
    assert DraftSaves(d) <==> d.title != "" && d.message != "" && AllPresent(users);
    d
  }

  /**
   * POST /notifications (administrators only). Title and message are
   * required. A global notification goes to every active user; any other to
   * the non-empty list of ids given, which is required. Everybody starts
   * unread; the type defaults to info. The schema trims title and message;
   * a notification its validation refuses (a title or message that is blank
   * once trimmed, say) fails the save, which the handler answers with 500.
   */
  function CreateNotification(req: CreateRequest, sender: Id, activeUsers: seq<Id>): (r: Result<Draft>)
    ensures req.title == "" || req.message == "" ==> r == Err(BadRequest("Title and message are required"))
    ensures req.title != "" && req.message != "" && !Addressed(req) ==>
      r == Err(BadRequest("Recipients are required for non-global notifications"))
    ensures req.title != "" && req.message != "" && Addressed(req) && (Trim(req.title) == "" || Trim(req.message) == "") ==>
      r == Err(ServerError("Error creating notification"))
    ensures r.Ok? <==>
      req.title != "" && req.message != "" && Addressed(req)
      && Trim(req.title) != "" && Trim(req.message) != "" && AllPresent(Addressees(req, activeUsers))
    ensures r.Ok? ==> r.value == DraftOf(req, sender, activeUsers) && DraftSaves(r.value)
  {
    if req.title == "" || req.message == "" then Err(BadRequest("Title and message are required"))
    else if !Addressed(req) then Err(BadRequest("Recipients are required for non-global notifications"))
    else
      var d := DraftOf(req, sender, activeUsers);
      if DraftSaves(d) then Ok(d) else Err(ServerError("Error creating notification"))
  }

  /** Nobody on a new notification has read it, and every user listed is a recipient. */
  lemma NewNotificationUnread(req: CreateRequest, sender: Id, activeUsers: seq<Id>, u: Id)
    requires CreateNotification(req, sender, activeUsers).Ok?
    ensures var d := CreateNotification(req, sender, activeUsers).value;
      var users := if req.isGlobal then activeUsers else req.recipients.value;
      (u in users ==> FirstUnreadOf(d.recipients, u).Some?)
      && (u !in users ==> FirstUnreadOf(d.recipients, u).None?)
  {
    var d := CreateNotification(req, sender, activeUsers).value;
    var users := if req.isGlobal then activeUsers else req.recipients.value;
    if u in users {
      var k :| 0 <= k < |users| && users[k] == u;
      assert d.recipients[k].user == u && !d.recipients[k].read;
    }
  }

  /**
   * The stored notification: the draft's fields, under a new id. A request
   * CreateNotification refuses, whether before the save or by the save's
   * validation, stores nothing.
   */
  method PostNotification(db: Database, req: CreateRequest, sender: Id, activeUsers: seq<Id>, id: Id)
    returns (r: Result<Notification>)
    modifies db`notifications
    ensures r.Ok? <==> CreateNotification(req, sender, activeUsers).Ok?
    ensures r.Err? ==> r.error == CreateNotification(req, sender, activeUsers).error
                       && db.notifications == old(db.notifications)
    ensures r.Ok? ==>
      var d := CreateNotification(req, sender, activeUsers).value;
      var n := r.value;
      fresh(n) && db.notifications == old(db.notifications)[id := n]
      && n.id == id && n.title == d.title && n.message == d.message && n.kind == d.kind
      && n.sender == d.sender && n.isGlobal == d.isGlobal && n.recipients == d.recipients
  {
    var draft := CreateNotification(req, sender, activeUsers);
    if draft.Err? {
      return Err(draft.error);
    }
    var d := draft.value;
    var n := new Notification(id, d.title, d.message, d.kind, d.sender, d.isGlobal, d.recipients);
    db.notifications := db.notifications[id := n];
    return Ok(n);
  }

  function NotificationFrame(db: Database, id: Id): set<Notification>
    reads db
  {
    if id in db.notifications then {db.notifications[id]} else {}
  }

  /**
   * PUT /notifications/:id/read. A missing notification, or one the query of
   * markAsRead does not match, is "not found or already read" and nothing
   * changes; otherwise the recipients are those markAsRead leaves.
   */
  method MarkRead(db: Database, id: Id, user: Id, now: int) returns (r: Result<()>)
    modifies NotificationFrame(db, id)
    ensures id !in db.notifications ==> r == Err(NotFound("Notification not found or already read"))
    ensures id in db.notifications ==>
      var n := db.notifications[id];
      (r.Ok? <==> QueryMatches(old(n.recipients), user))
      && (r.Err? ==> r == Err(NotFound("Notification not found or already read")))
      && n.recipients == MarkedAsWritten(old(n.recipients), user, now)
  {
    if id !in db.notifications {
      return Err(NotFound("Notification not found or already read"));
    }
    var modified := db.notifications[id].MarkAsRead(user, now);
    if modified == 0 {
      return Err(NotFound("Notification not found or already read"));
    }
    return Ok(());
  }

  /** DELETE /notifications/:id (administrators only). */
  method DeleteNotification(db: Database, id: Id) returns (r: Result<()>)
    modifies db`notifications
    ensures r.Ok? <==> old(id in db.notifications)
    ensures r.Err? ==> r == Err(NotFound("Notification not found")) && db.notifications == old(db.notifications)
    ensures r.Ok? ==> db.notifications == old(db.notifications) - {id}
  {
    if id !in db.notifications {
      return Err(NotFound("Notification not found"));
    }
    db.notifications := db.notifications - {id};
    return Ok(());
  }
}
