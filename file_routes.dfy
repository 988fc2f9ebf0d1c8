/**
 * The file endpoints: the upload middleware's choice of directory, its file
 * filter and stored file name, the upload handler (which classifies the file
 * and counts the rows of a contact list), the description update and the
 * deletion guard.
 *
 * The CSV file is given as its rows, already parsed; the clock and random
 * part of a stored file name are given as one `suffix`. Reading and removing
 * the file on disk are not part of this model.
 */
module FileRoutes {
  import opened Util
  import opened Http
  import opened Db
  import FileModel
  import Contacts
  import CampaignModel

  /** The uploaded file as the upload middleware describes it. */
  datatype Upload = Upload(filename: string, originalname: string, mimetype: string, path: string, size: int)

  predicate IsAudio(mimetype: string)
  {
    StartsWith(mimetype, "audio/")
  }

  predicate IsCsvName(originalname: string)
  {
    EndsWith(originalname, ".csv")
  }

  // ---------------------------------------------------------------------------
  // The upload middleware
  // ---------------------------------------------------------------------------

  datatype UploadDir = AudioDir | ContactsDir | DocumentsDir

  /** The directory an upload is stored in: audio first, then CSV files by name, then documents. */
  function Destination(mimetype: string, originalname: string): (d: UploadDir)
    ensures d == AudioDir <==> IsAudio(mimetype)
    ensures d == ContactsDir <==> !IsAudio(mimetype) && IsCsvName(originalname)
  {
    if IsAudio(mimetype) then AudioDir
    else if IsCsvName(originalname) then ContactsDir
    else DocumentsDir
  }

  /** The document mimetypes the filter accepts. */
  predicate DocumentMimetype(mimetype: string)
  {
    mimetype == "application/pdf" || mimetype == "application/msword"
    || mimetype == "application/vnd.openxmlformats-officedocument.wordprocessingml.document"
    || mimetype == "text/plain"
  }

  /** The file filter: audio, CSV by name, and four document types; anything else is refused. */
  function FileFilter(mimetype: string, originalname: string): (r: Result<()>)
    ensures r.Ok? <==> IsAudio(mimetype) || IsCsvName(originalname) || DocumentMimetype(mimetype)
    ensures r.Err? ==> r.error == ServerError("Unsupported file type")
  {
    if IsAudio(mimetype) || IsCsvName(originalname) || DocumentMimetype(mimetype) then Ok(())
    else Err(ServerError("Unsupported file type"))
  }

  /** The size limit of the middleware: 10 MiB. */
  const MaxFileSize: int := 10 * 1024 * 1024

  /**
   * The extension of a file name as the path library gives it: from the last
   * '.' on, except that a name starting with its only dot, a name without a
   * dot and the name ".." have none.
   */
  function ExtName(name: string): (e: string)
    ensures e == "" || (e[0] == '.' && EndsWith(name, e) && |e| < |name|)
    ensures '.' !in name ==> e == ""
  {
    var k := FileModel.LastDot(name);
    if k.None? || k.value == 0 || name == ".." then ""
    else
      var e := name[k.value..];
      assert name[|name| - |e|..] == e;
      e
  }

  /** Past a leading character, the path extension is the model's extension with its dot. */
  lemma ExtNameIsDotExtension(name: string)
    requires FileModel.LastDot(name).Some? && FileModel.LastDot(name).value > 0 && name != ".."
    ensures ExtName(name) == "." + FileModel.Extension(name)
  {
    var k := FileModel.LastDot(name).value;
    assert name[k..] == [name[k]] + name[k + 1..];
  }

  /** A CSV file with a name before the ".csv" is stored with the extension ".csv". */
  lemma CsvKeepsExtension(name: string)
    requires IsCsvName(name) && |name| > 4
    ensures ExtName(name) == ".csv"
  {
    var k := FileModel.LastDot(name);
    assert name[|name| - 4] == '.';
    assert k.Some? && k.value == |name| - 4 by {
      assert forall j :: |name| - 4 < j < |name| ==> name[j] != '.' by {
        assert name[|name| - 4..] == ".csv";
      }
    }
  }

  /** The stored file name: field name, "-", the unique suffix, then the original name's extension. */
  function StoredFilename(fieldname: string, suffix: string, originalname: string): (f: string)
    ensures StartsWith(f, fieldname + "-" + suffix)
    ensures EndsWith(f, ExtName(originalname))
    ensures |f| == |fieldname| + 1 + |suffix| + |ExtName(originalname)|
  {
    var f := fieldname + "-" + suffix + ExtName(originalname);
    assert f[..|fieldname + "-" + suffix|] == fieldname + "-" + suffix;
    assert f[|f| - |ExtName(originalname)|..] == ExtName(originalname);
    f
  }

  // ---------------------------------------------------------------------------
  // Upload
  // ---------------------------------------------------------------------------

  /** The type recorded for an upload: audio first, then contacts by name, then document. */
  function FileTypeOf(mimetype: string, originalname: string): (t: FileModel.FileType)
    ensures t == FileModel.Audio <==> IsAudio(mimetype)
    ensures t == FileModel.Contacts <==> !IsAudio(mimetype) && IsCsvName(originalname)
  {
    if IsAudio(mimetype) then FileModel.Audio
    else if IsCsvName(originalname) then FileModel.Contacts
    else FileModel.Document
  }

  /**
   * The directory an upload is stored in matches the type recorded for it,
   * and every audio or contacts upload passes the filter, while a document
   * passes only with one of the four document mimetypes.
   */
  lemma DirectoryMatchesType(mimetype: string, originalname: string)
    ensures var t := FileTypeOf(mimetype, originalname);
      var d := Destination(mimetype, originalname);
      (t == FileModel.Audio <==> d == AudioDir)
      && (t == FileModel.Contacts <==> d == ContactsDir)
      && (t == FileModel.Document <==> d == DocumentsDir)
      && (t != FileModel.Document ==> FileFilter(mimetype, originalname).Ok?)
      && (t == FileModel.Document ==> (FileFilter(mimetype, originalname).Ok? <==> DocumentMimetype(mimetype)))
  {
  }

  /**
   * POST /files/upload. The middleware refuses a file its filter rejects and
   * one larger than the limit; a request without a file is refused. The
   * record takes the upload's names, type and the description (or ""); a
   * contacts file carries the counts of its rows.
   */
  method UploadFile(db: Database, user: Id, upload: Option<Upload>, description: string,
                    rows: seq<Contacts.Row>, id: Id) returns (r: Result<FileModel.FileRecord>)
    modifies db`files
    ensures upload.Some? && FileFilter(upload.value.mimetype, upload.value.originalname).Err? ==>
      r == Err(ServerError("Unsupported file type"))
    ensures (upload.Some? && FileFilter(upload.value.mimetype, upload.value.originalname).Ok?
             && upload.value.size > MaxFileSize) ==> r == Err(ServerError("File too large"))
    ensures upload.None? ==> r == Err(BadRequest("No file uploaded"))
    ensures r.Ok? <==>
      upload.Some? && FileFilter(upload.value.mimetype, upload.value.originalname).Ok?
      && upload.value.size <= MaxFileSize
    ensures r.Err? ==> db.files == old(db.files)
    ensures r.Ok? ==>
      var u := upload.value;
      var f := r.value;
      var valid := |Contacts.ValidRows(rows)|;
      db.files == old(db.files)[id := f]
      && f.id == id && f.user == user && f.isActive
      && f.filename == u.filename && f.originalname == u.originalname && f.mimetype == u.mimetype
      && f.path == u.path && f.size == u.size && f.description == description
      && f.kind == FileTypeOf(u.mimetype, u.originalname)
      && (f.kind == FileModel.Contacts ==> f.metadata == Some(FileModel.ContactCounts(|rows|, valid, |rows| - valid)))
      && (f.kind != FileModel.Contacts ==> f.metadata.None?)
  {
    if upload.Some? {
      var accepted := FileFilter(upload.value.mimetype, upload.value.originalname);
      if accepted.Err? {
        return Err(accepted.error);
      }
      if upload.value.size > MaxFileSize {
        return Err(ServerError("File too large"));
      }
    }
    if upload.None? {
      return Err(BadRequest("No file uploaded"));
    }
    var u := upload.value;
    var kind := FileTypeOf(u.mimetype, u.originalname);
    var file := FileModel.NewFile(id, user, u.filename, u.originalname, u.mimetype, u.path, u.size, kind, description);
    if kind == FileModel.Contacts {
      var counts, results := Contacts.CountContacts(rows);
      file := file.(metadata := Some(counts));
    }
    db.files := db.files[id := file];
    return Ok(file);
  }

  // ---------------------------------------------------------------------------
  // Update and deletion
  // ---------------------------------------------------------------------------

  /** The file with this id belongs to this user (`findOne({_id, user})`). */
  predicate Owned(db: Database, id: Id, user: Id)
    reads db
  {
    id in db.files && db.files[id].user == user
  }

  /** PUT /files/:id: a non-empty description replaces the old one; nothing else changes. */
  method UpdateFile(db: Database, user: Id, id: Id, description: string) returns (r: Result<FileModel.FileRecord>)
    modifies db`files
    ensures r.Ok? <==> old(Owned(db, id, user))
    ensures r.Err? ==> r == Err(NotFound("File not found")) && db.files == old(db.files)
    ensures r.Ok? ==>
      var f := old(db.files[id]);
      r.value == (if description != "" then f.(description := description) else f)
      && db.files == old(db.files)[id := r.value]
  {
    if !Owned(db, id, user) {
      return Err(NotFound("File not found"));
    }
    var file := db.files[id];
    if description != "" {
      file := file.(description := description);
    }
    db.files := db.files[id := file];
    return Ok(file);
  }

  /** The number of active campaigns calling the contacts of this file. */
  function ActiveCampaignsUsing(db: Database, id: Id): nat
    reads db, db.campaigns.Values
  {
    |set k | k in db.campaigns && db.campaigns[k].contactsFile == id && db.campaigns[k].status == CampaignModel.Active|
  }

  /** DELETE /files/:id: refused while an active campaign uses the file; otherwise the record is removed. */
  method DeleteFile(db: Database, user: Id, id: Id) returns (r: Result<()>)
    modifies db`files
    ensures old(!Owned(db, id, user)) ==> r == Err(NotFound("File not found"))
    ensures old(Owned(db, id, user)) && old(ActiveCampaignsUsing(db, id)) > 0 ==>
      r == Err(BadRequest("Cannot delete file used in active campaigns"))
    ensures r.Ok? <==> old(Owned(db, id, user)) && old(ActiveCampaignsUsing(db, id)) == 0
    ensures r.Ok? ==> db.files == old(db.files) - {id}
    ensures r.Err? ==> db.files == old(db.files)
  {
    if !Owned(db, id, user) {
      return Err(NotFound("File not found"));
    }
    if ActiveCampaignsUsing(db, id) > 0 {
      return Err(BadRequest("Cannot delete file used in active campaigns"));
    }
    db.files := db.files - {id};
    return Ok(());
  }
}
