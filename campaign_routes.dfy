/**
 * The campaign endpoints that change campaigns: creation from an uploaded
 * contact list, editing, deletion, and the start and pause requests. Each
 * looks the campaign up among the requesting user's own campaigns and
 * refuses the change when the campaign's status does not allow it.
 *
 * Request fields the client leaves out are "" (the handlers test them for
 * truthiness). The generated record ids and the clock are inputs.
 */
module CampaignRoutes {
  import opened Util
  import opened Http
  import opened CampaignModel
  import opened Db
  import opened Contacts
  import BlocklistModel
  import FileModel
  import ApiRoutes
  import FileRoutes

  // ---------------------------------------------------------------------------
  // Creation
  // ---------------------------------------------------------------------------

  datatype CreateRequest = CreateRequest(name: string, callerIdId: Id, messageScript: string, transferKey: string)

  /** The upload filter of this endpoint: a CSV mimetype or a name ending in ".csv". */
  predicate CsvUpload(mimetype: string, originalname: string)
  {
    mimetype == "text/csv" || EndsWith(originalname, ".csv")
  }

  /** The contacts-file record saved for a new campaign, with the counts of its rows. */
  function ContactsFileRecord(id: Id, user: Id, upload: FileRoutes.Upload, name: string, counts: FileModel.ContactCounts)
    : (f: FileModel.FileRecord)
    ensures f.id == id && f.user == user && f.kind == FileModel.Contacts && f.isActive
    ensures f.originalname == upload.originalname && f.metadata == Some(counts)
    ensures f.description == "Contacts for campaign: " + name
  {
    FileModel.NewFile(id, user, upload.filename, upload.originalname, upload.mimetype, upload.path, upload.size,
                      FileModel.Contacts, "Contacts for campaign: " + name)
      .(metadata := Some(counts))
  }

  /** A script the blocked-word check lets through: empty, or without a blocked word. */
  predicate ScriptClean(script: string, blocklist: seq<BlocklistModel.BlockedWord>)
  {
    script == "" || BlocklistModel.FoundWords(script, blocklist) == []
  }

  /**
   * POST /campaigns. The upload filter runs first and fails the request for a
   * file that is not CSV. Then, in order: the named caller ID must be the
   * user's own, verified and active; the script must contain no blocked word;
   * a file must have been uploaded. The handler then saves the file record
   * with the row counts of `rows` (the file's parsed rows) and a new pending
   * campaign whose totalContacts is the number of valid rows and whose
   * transfer key defaults to "1".
   *
   * The campaign is saved inside the CSV stream's end callback. When that
   * save fails validation (a blank name or no script) the rejection is not
   * caught: the file record stays, no campaign is stored, and no response
   * is sent. `r` is None in that case, else the response sent.
   */
  method CreateCampaign(db: Database, user: Id, req: CreateRequest, upload: Option<FileRoutes.Upload>, rows: seq<Row>,
                        fileId: Id, campaignId: Id) returns (r: Option<Result<Campaign>>)
    modifies db`campaigns, db`files
    ensures r.None? || r.value.Err? ==> db.campaigns == old(db.campaigns)
    ensures r.Some? && r.value.Err? ==> db.files == old(db.files)
    ensures upload.Some? && !CsvUpload(upload.value.mimetype, upload.value.originalname) ==>
      r == Some(Err(ServerError("Only CSV files are allowed")))
    ensures (upload.None? || CsvUpload(upload.value.mimetype, upload.value.originalname))
            && !(req.callerIdId in db.callerIds && ApiRoutes.Usable(db.callerIds[req.callerIdId], user)) ==>
      r == Some(Err(BadRequest("Invalid or unverified caller ID")))
    ensures r.Some? && (r.value.Ok? || r.value.error.BlockedWords?) ==>
      req.callerIdId in db.callerIds && ApiRoutes.Usable(db.callerIds[req.callerIdId], user)
    ensures r.Some? && r.value.Err? && r.value.error.BlockedWords? <==>
      (upload.None? || CsvUpload(upload.value.mimetype, upload.value.originalname))
      && req.callerIdId in db.callerIds && ApiRoutes.Usable(db.callerIds[req.callerIdId], user)
      && req.messageScript != "" && BlocklistModel.FoundWords(req.messageScript, db.blocklist) != []
    ensures r.Some? && r.value.Err? && r.value.error.BlockedWords? ==>
      r.value.error.words == BlocklistModel.FoundWords(req.messageScript, db.blocklist)
    ensures (upload.None? || CsvUpload(upload.value.mimetype, upload.value.originalname))
            && req.callerIdId in db.callerIds && ApiRoutes.Usable(db.callerIds[req.callerIdId], user)
            && ScriptClean(req.messageScript, db.blocklist) && upload.None? ==>
      r == Some(Err(BadRequest("Contacts file is required")))
    ensures r.None? || r.value.Ok? <==>
      upload.Some? && CsvUpload(upload.value.mimetype, upload.value.originalname)
      && req.callerIdId in db.callerIds && ApiRoutes.Usable(db.callerIds[req.callerIdId], user)
      && ScriptClean(req.messageScript, db.blocklist)
    ensures r.None? || r.value.Ok? ==>
      var valid := |ValidRows(rows)|;
      db.files == old(db.files)[fileId := ContactsFileRecord(fileId, user, upload.value, req.name,
                                                             FileModel.ContactCounts(|rows|, valid, |rows| - valid))]
    ensures r.None? <==>
      upload.Some? && CsvUpload(upload.value.mimetype, upload.value.originalname)
      && req.callerIdId in db.callerIds && ApiRoutes.Usable(db.callerIds[req.callerIdId], user)
      && ScriptClean(req.messageScript, db.blocklist)
      && !CampaignSaves(Trim(req.name), user, req.callerIdId, fileId, req.messageScript)
    ensures r.Some? && r.value.Ok? ==>
      var c := r.value.value;
      fresh(c) && db.campaigns == old(db.campaigns)[campaignId := c]
      && CampaignSaves(c.name, c.user, c.callerId, c.contactsFile, c.messageScript)
      && c.id == campaignId && c.user == user && c.callerId == req.callerIdId && c.contactsFile == fileId
      && c.name == Trim(req.name) && c.messageScript == req.messageScript
      && c.transferKey == TransferKeyOrDefault(req.transferKey)
      && c.totalContacts == |ValidRows(rows)| && c.status == Pending && c.processedContacts == 0
      && c.startTime.None? && c.endTime.None? && c.Valid()
  {
    if upload.Some? && !CsvUpload(upload.value.mimetype, upload.value.originalname) {
      return Some(Err(ServerError("Only CSV files are allowed")));
    }
    if !(req.callerIdId in db.callerIds && ApiRoutes.Usable(db.callerIds[req.callerIdId], user)) {
      return Some(Err(BadRequest("Invalid or unverified caller ID")));
    }
    var contains, words := BlocklistModel.ContainsBlockedWords(req.messageScript, db.blocklist);
    if contains {
      return Some(Err(BlockedWords(words)));
    }
    if upload.None? {
      return Some(Err(BadRequest("Contacts file is required")));
    }
    r := SaveCampaign(db, user, req, upload.value, rows, fileId, campaignId);
  }

  /**
   * The end of a creation request that passed its checks: the file record
   * with the row counts, then the campaign, whose failed save leaves no
   * campaign and sends no response (None).
   */
  method SaveCampaign(db: Database, user: Id, req: CreateRequest, upload: FileRoutes.Upload, rows: seq<Row>,
                      fileId: Id, campaignId: Id) returns (r: Option<Result<Campaign>>)
    modifies db`campaigns, db`files
    ensures var valid := |ValidRows(rows)|;
      db.files == old(db.files)[fileId := ContactsFileRecord(fileId, user, upload, req.name,
                                                             FileModel.ContactCounts(|rows|, valid, |rows| - valid))]
    ensures r.None? <==> !CampaignSaves(Trim(req.name), user, req.callerIdId, fileId, req.messageScript)
    ensures r.None? ==> db.campaigns == old(db.campaigns)
    ensures r.Some? ==> r.value.Ok?
    ensures r.Some? ==>
      var c := r.value.value;
      fresh(c) && db.campaigns == old(db.campaigns)[campaignId := c]
      && CampaignSaves(c.name, c.user, c.callerId, c.contactsFile, c.messageScript)
      && c.id == campaignId && c.user == user && c.callerId == req.callerIdId && c.contactsFile == fileId
      && c.name == Trim(req.name) && c.messageScript == req.messageScript
      && c.transferKey == TransferKeyOrDefault(req.transferKey)
      && c.totalContacts == |ValidRows(rows)| && c.status == Pending && c.processedContacts == 0
      && c.startTime.None? && c.endTime.None? && c.Valid()
  {
    var counts, results := CountContacts(rows);
    var valid := |ValidRows(rows)|;
    assert counts == FileModel.ContactCounts(|rows|, valid, |rows| - valid);
    var file := ContactsFileRecord(fileId, user, upload, req.name, counts);
    db.files := db.files[fileId := file];
    var name := Trim(req.name);
    if !CampaignSaves(name, user, req.callerIdId, fileId, req.messageScript) {
      return None;
    }
    var campaign := new Campaign(campaignId, user, req.callerIdId, fileId, name, req.messageScript,
                                 TransferKeyOrDefault(req.transferKey), counts.validContacts);
    db.campaigns := db.campaigns[campaignId := campaign];
    return Some(Ok(campaign));
  }

  /**
   * A campaign created from a file (totalContacts is its number of valid
   * rows) is dispatched to exactly as many contacts as it counted, so the
   * credit check on start (credits >= totalContacts × rate) passes exactly
   * when the charge made after the last batch (contacts × rate) leaves the
   * owner's credits non-negative.
   */
  lemma StartCheckCoversSettlement(rows: seq<Row>, totalContacts: int, rate: int, credits: int)
    requires totalContacts == |ValidRows(rows)|
    ensures |ContactsOf(rows)| == totalContacts
    ensures credits >= totalContacts * rate <==> credits - |ContactsOf(rows)| * rate >= 0
  {
    ContactsAreValidRows(rows);
  }

  // ---------------------------------------------------------------------------
  // Status guards
  // ---------------------------------------------------------------------------

  /** A campaign may be edited unless it is running or finished. */
  predicate CanUpdate(s: CampaignStatus) { s != Active && s != Completed }

  /** A campaign may be deleted unless it is running. */
  predicate CanDelete(s: CampaignStatus) { s != Active }

  /** A campaign may be paused only while it is running. */
  predicate CanPause(s: CampaignStatus) { s == Active }

  /**
   * The status check of a start request, before credits are looked at: the
   * refusal for a running or finished campaign, none otherwise.
   */
  function StartRefusal(s: CampaignStatus): (e: Option<Error>)
    ensures e.None? <==> s.Pending? || s.Paused? || s.Failed?
    ensures e.Some? ==> StatusCode(e.value) == 400
  {
    if s == Active then Some(BadRequest("Campaign is already active"))
    else if s == Completed then Some(BadRequest("Campaign is already completed"))
    else None
  }

  // ---------------------------------------------------------------------------
  // Update, delete, start, pause
  // ---------------------------------------------------------------------------

  /** The name an update leaves: the one given (trimmed by the schema's setter) when it is non-empty, else the old one. */
  function UpdatedName(given: string, current: string): string
  {
    if given != "" then Trim(given) else current
  }

  /** A field an update leaves: the one given when it is non-empty, else the old one. */
  function UpdatedField(given: string, current: string): string
  {
    if given != "" then given else current
  }

  /**
   * PUT /campaigns/:id. Refuses a campaign that is running or finished, and a
   * new script with blocked words; otherwise overwrites name, script and
   * transfer key with those given (non-empty) and keeps the others. The save
   * that follows fails validation, and the handler answers 500 with nothing
   * changed, when the updated campaign lacks a required field: a name that
   * is blank once trimmed, say.
   */
  method UpdateCampaign(db: Database, user: Id, id: Id, name: string, messageScript: string, transferKey: string)
    returns (r: Result<Campaign>)
    modifies db.OwnedCampaignFrame(id, user)
    ensures db.OwnedCampaign(id, user).None? ==> r == Err(NotFound("Campaign not found"))
    ensures db.OwnedCampaign(id, user).Some? ==>
      var c := db.campaigns[id];
      c.status == old(c.status) && c.processedContacts == old(c.processedContacts)
      && c.startTime == old(c.startTime) && c.endTime == old(c.endTime)
    ensures db.OwnedCampaign(id, user).Some? ==>
      var c := db.campaigns[id];
      (!CanUpdate(c.status) ==> r == Err(BadRequest("Cannot update an active or completed campaign")))
      && (r.Err? && r.error.BlockedWords? <==>
            CanUpdate(c.status) && messageScript != ""
            && BlocklistModel.FoundWords(messageScript, db.blocklist) != [])
      && (r.Err? && r.error.BlockedWords? ==>
            r.error.words == BlocklistModel.FoundWords(messageScript, db.blocklist))
    ensures db.OwnedCampaign(id, user).Some? ==>
      var c := db.campaigns[id];
      var saves := CampaignSaves(UpdatedName(name, old(c.name)), c.user, c.callerId, c.contactsFile,
                                 UpdatedField(messageScript, old(c.messageScript)));
      (CanUpdate(c.status) && ScriptClean(messageScript, db.blocklist) && !saves ==>
         r == Err(ServerError("Error updating campaign")))
      && (r.Ok? <==> CanUpdate(c.status) && ScriptClean(messageScript, db.blocklist) && saves)
    ensures db.OwnedCampaign(id, user).Some? ==>
      var c := db.campaigns[id];
      (r.Err? ==> c.name == old(c.name) && c.messageScript == old(c.messageScript)
                  && c.transferKey == old(c.transferKey))
      && (r.Ok? ==>
            r.value == c && CanUpdate(c.status)
            && CampaignSaves(c.name, c.user, c.callerId, c.contactsFile, c.messageScript)
            && c.name == UpdatedName(name, old(c.name))
            && c.messageScript == UpdatedField(messageScript, old(c.messageScript))
            && c.transferKey == UpdatedField(transferKey, old(c.transferKey)))
  {
    var found := db.OwnedCampaign(id, user);
    if found.None? {
      return Err(NotFound("Campaign not found"));
    }
    var campaign := found.value;
    if !CanUpdate(campaign.status) {
      return Err(BadRequest("Cannot update an active or completed campaign"));
    }
    if messageScript != "" {
      var contains, words := BlocklistModel.ContainsBlockedWords(messageScript, db.blocklist);
      if contains {
        return Err(BlockedWords(words));
      }
    }
    var newName := UpdatedName(name, campaign.name);
    var newScript := UpdatedField(messageScript, campaign.messageScript);
    if !CampaignSaves(newName, campaign.user, campaign.callerId, campaign.contactsFile, newScript) {
      return Err(ServerError("Error updating campaign"));
    }
    campaign.name := newName;
    campaign.messageScript := newScript;
    campaign.transferKey := UpdatedField(transferKey, campaign.transferKey);
    return Ok(campaign);
  }

  /** DELETE /campaigns/:id: refused while the campaign runs; otherwise the campaign is removed. */
  method DeleteCampaign(db: Database, user: Id, id: Id) returns (r: Result<()>)
    modifies db`campaigns
    ensures old(db.OwnedCampaign(id, user)).None? ==> r == Err(NotFound("Campaign not found"))
    ensures old(db.OwnedCampaign(id, user)).Some? && !CanDelete(old(db.campaigns[id].status)) ==>
      r == Err(BadRequest("Cannot delete an active campaign"))
    ensures r.Ok? <==> old(db.OwnedCampaign(id, user)).Some? && CanDelete(old(db.campaigns[id].status))
    ensures r.Ok? ==> db.campaigns == old(db.campaigns) - {id} && id !in db.campaigns
    ensures r.Err? ==> db.campaigns == old(db.campaigns)
  {
    var found := db.OwnedCampaign(id, user);
    if found.None? {
      return Err(NotFound("Campaign not found"));
    }
    if !CanDelete(found.value.status) {
      return Err(BadRequest("Cannot delete an active campaign"));
    }
    db.campaigns := db.campaigns - {id};
    return Ok(());
  }

  /**
   * POST /campaigns/:id/start. Refuses a running or finished campaign; then
   * requires the requesting user's credits to cover totalContacts calls at
   * the platform rate, and reports what is required and available when they
   * do not. A start that passes makes the campaign active from `now`. A
   * requesting user that no longer exists fails the request.
   */
  method StartCampaign(db: Database, user: Id, id: Id, now: int) returns (r: Result<Campaign>)
    modifies db.OwnedCampaignFrame(id, user)
    ensures db.OwnedCampaign(id, user).None? ==> r == Err(NotFound("Campaign not found"))
    ensures db.OwnedCampaign(id, user).Some? ==>
      var c := db.campaigns[id];
      var required := c.totalContacts * ApiRoutes.PlatformRate(db);
      (StartRefusal(old(c.status)).Some? ==> r == Err(StartRefusal(old(c.status)).value))
      && (StartRefusal(old(c.status)).None? && user !in db.users ==> r == Err(ServerError("Error starting campaign")))
      && (StartRefusal(old(c.status)).None? && user in db.users && db.users[user].credits < required ==>
            r == Err(InsufficientCredits(required, db.users[user].credits)))
      && (r.Ok? <==>
            StartRefusal(old(c.status)).None? && user in db.users && db.users[user].credits >= required)
      && (r.Ok? ==> r.value == c && c.status == Active && c.startTime == Some(now))
      && (r.Err? ==> c.status == old(c.status) && c.startTime == old(c.startTime))
      && c.name == old(c.name) && c.messageScript == old(c.messageScript) && c.transferKey == old(c.transferKey)
      && c.processedContacts == old(c.processedContacts) && c.endTime == old(c.endTime)
  {
    var found := db.OwnedCampaign(id, user);
    if found.None? {
      return Err(NotFound("Campaign not found"));
    }
    var campaign := found.value;
    var refusal := StartRefusal(campaign.status);
    if refusal.Some? {
      return Err(refusal.value);
    }
    if user !in db.users {
      return Err(ServerError("Error starting campaign"));
    }
    var owner := db.users[user];
    var callRate := ApiRoutes.PlatformRate(db);
    var requiredCredits := campaign.totalContacts * callRate;
    if owner.credits < requiredCredits {
      return Err(InsufficientCredits(requiredCredits, owner.credits));
    }
    campaign.status := Active;
    campaign.startTime := Some(now);
    return Ok(campaign);
  }

  /** POST /campaigns/:id/pause: only a running campaign is paused; nothing else changes. */
  method PauseCampaign(db: Database, user: Id, id: Id) returns (r: Result<Campaign>)
    modifies db.OwnedCampaignFrame(id, user)
    ensures db.OwnedCampaign(id, user).None? ==> r == Err(NotFound("Campaign not found"))
    ensures db.OwnedCampaign(id, user).Some? ==>
      var c := db.campaigns[id];
      (r.Ok? <==> CanPause(old(c.status)))
      && (r.Ok? ==> r.value == c && c.status == Paused)
      && (r.Err? ==> r == Err(BadRequest("Only active campaigns can be paused")) && c.status == old(c.status))
      && c.startTime == old(c.startTime) && c.endTime == old(c.endTime)
      && c.processedContacts == old(c.processedContacts)
  {
    var found := db.OwnedCampaign(id, user);
    if found.None? {
      return Err(NotFound("Campaign not found"));
    }
    var campaign := found.value;
    if !CanPause(campaign.status) {
      return Err(BadRequest("Only active campaigns can be paused"));
    }
    campaign.status := Paused;
    return Ok(campaign);
  }
}
