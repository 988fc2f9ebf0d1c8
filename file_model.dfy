/**
 * The File record: an upload (audio, contact list or document) with its
 * download address and the extension of its original name.
 */
module FileModel {
  import opened Util

  datatype FileType = Audio | Contacts | Document

  /** Contact counts recorded on a contacts file. */
  datatype ContactCounts = ContactCounts(totalContacts: int, validContacts: int, invalidContacts: int)

  datatype FileRecord = FileRecord(
    id: Id,
    user: Id,
    filename: string,
    originalname: string,
    mimetype: string,
    path: string,
    size: int,
    kind: FileType,
    description: string,
    metadata: Option<ContactCounts>,
    isActive: bool)

  /** A new record; it is active unless told otherwise. */
  function NewFile(id: Id, user: Id, filename: string, originalname: string, mimetype: string,
                   path: string, size: int, kind: FileType, description: string): (f: FileRecord)
    ensures f.isActive && f.metadata.None?
    ensures f.id == id && f.user == user && f.kind == kind && f.originalname == originalname
  {
    FileRecord(id, user, filename, originalname, mimetype, path, size, kind, description, None, true)
  }

  /** url: the download address of the record. */
  function Url(id: Id): (u: string)
    ensures StartsWith(u, "/api/files/") && u[|"/api/files/"|..] == id
  {
    "/api/files/" + id
  }

  /** The index of the last '.' in the name, if there is one. */
  function LastDot(name: string): (k: Option<nat>)
    ensures k.None? <==> '.' !in name
    ensures k.Some? ==> k.value < |name| && name[k.value] == '.'
    ensures k.Some? ==> forall j :: k.value < j < |name| ==> name[j] != '.'
  {
    if name == [] then None
    else if name[|name| - 1] == '.' then Some(|name| - 1)
    else
      var k := LastDot(name[..|name| - 1]);
      assert '.' in name ==> '.' in name[..|name| - 1] by {
        if '.' in name {
          var j :| 0 <= j < |name| && name[j] == '.';
          assert name[..|name| - 1][j] == '.';
        }
      }
      k
  }

  /** extension: `originalname.split('.').pop()`, the text after the last '.' (all of it when there is none). */
  function Extension(name: string): (ext: string)
    ensures '.' !in ext
    ensures EndsWith(name, ext)
    ensures '.' !in name ==> ext == name
    ensures '.' in name ==> |ext| < |name| && name[|name| - |ext| - 1] == '.'
  {
    var k := LastDot(name);
    if k.None? then name
    else
      var ext := name[k.value + 1..];
      assert forall c :: c in ext ==> c != '.' by {
        forall c | c in ext ensures c != '.' {
          var j :| 0 <= j < |ext| && ext[j] == c;
          assert name[k.value + 1 + j] == c;
        }
      }
      ext
  }

  /** The extension depends only on what follows the last '.'. */
  lemma ExtensionAfterDot(stem: string, ext: string)
    requires '.' !in ext
    ensures Extension(stem + "." + ext) == ext
  {
    var name := stem + "." + ext;
    var r := Extension(name);
    assert name[|stem|] == '.' && name[|stem| + 1..] == ext;
    assert r == name[|name| - |r|..] == ext;
  }
}
