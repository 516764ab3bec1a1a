/**
 * The signed-in user's document entry points: an upload target, the
 * document record created after an upload (which schedules its analysis),
 * the caller's document list and a single-document lookup.
 */
module Documents {
  import opened Wrappers
  import opened Schema
  import opened Store

  /**
   * Hands out the storage upload URL `issued` to a signed-in caller.
   * The storage service that issues it is not part of this model.
   */
  function GenerateUploadUrl(caller: Option<UserId>, issued: string): (r: Result<string, Error>)
    ensures caller.None? <==> r.Err?
    ensures r.Err? ==> r.error == NotAuthenticated
    ensures r.Ok? ==> r.value == issued
  {
    if caller.None? then Err(NotAuthenticated) else Ok(issued)
  }

  /** The record `createDocument` inserts; `now` is the clock reading for `uploadedAt`. */
  function NewDocument(user: UserId, docType: DocType, fileName: string, fileId: StorageId, now: int): (d: Document)
    ensures WellFormed(d)
    ensures d.userId == user && d.docType == docType && d.fileName == fileName && d.fileId == fileId
    ensures d.uploadedAt == now && d.status == Processing && d.analysisResult.None?
  {
    Document(user, docType, fileName, fileId, now, Processing, None)
  }

  /**
   * Inserts a processing document for the caller and schedules exactly one
   * analysis job for it; an anonymous caller changes nothing.
   */
  method CreateDocument(db: Database, caller: Option<UserId>, docType: DocType, fileName: string, fileId: StorageId, now: int)
    returns (r: Result<DocumentId, Error>)
    requires db.Valid()
    modifies db
    ensures db.Valid()
    ensures caller.None? <==> r.Err?
    ensures r.Err? ==> r.error == NotAuthenticated && unchanged(db)
    ensures r.Ok? ==>
      && r.value == old(db.nextId) && r.value !in old(db.documents)
      && db.documents == old(db.documents)[r.value := NewDocument(caller.value, docType, fileName, fileId, now)]
      && db.scheduled == old(db.scheduled) + [r.value]
      && db.nextId == old(db.nextId) + 1
    ensures Evolves(old(db.documents), db.documents)
    ensures db.deadlines == old(db.deadlines)
  {
    if caller.None? {
      return Err(NotAuthenticated);
    }
    var documentId := db.InsertDocument(NewDocument(caller.value, docType, fileName, fileId, now));
    db.RunAfter(documentId);
    r := Ok(documentId);
  }

  function OwnerOfDocument(d: Document): UserId
  {
    d.userId
  }

  /**
   * The caller's documents, newest first; every stored document of the
   * caller appears, as stored, once. No caller, no documents.
   */
  function GetUserDocuments(documents: map<DocumentId, Document>, bound: nat, caller: Option<UserId>): (rows: seq<Stored<Document>>)
    requires IdsBelow(documents, bound)
    ensures caller.None? ==> rows == []
    ensures caller.Some? ==> IdsOf(rows) == set id | id in documents && documents[id].userId == caller.value
    ensures forall k :: 0 <= k < |rows| ==>
      rows[k].id in documents && rows[k].value == documents[rows[k].id] && Some(rows[k].value.userId) == caller
    ensures IdsDescending(rows)
  {
    match caller
    case None => []
    case Some(user) => ScanByUser(documents, OwnerOfDocument, user, bound)
  }

  /** A document as `getDocument` returns it: the record, its id and its file's URL. */
  datatype DocumentView = DocumentView(id: DocumentId, document: Document, fileUrl: Option<string>)

  /**
   * The caller's own document `documentId` with its file URL. Being signed
   * out, a missing id and another user's document all give the same `None`.
   */
  function GetDocument(documents: map<DocumentId, Document>, caller: Option<UserId>, documentId: DocumentId,
                       storageUrl: StorageId -> Option<string>): (r: Option<DocumentView>)
    ensures r.None? <==> caller.None? || documentId !in documents || documents[documentId].userId != caller.value
    ensures r.Some? ==>
      && r.value.id == documentId
      && r.value.document == documents[documentId]
      && r.value.fileUrl == storageUrl(documents[documentId].fileId)
  {
    if caller.None? then None
    else if documentId !in documents || documents[documentId].userId != caller.value then None
    else
      var document := documents[documentId];
      Some(DocumentView(documentId, document, storageUrl(document.fileId)))
  }

  /**
   * The single lookup and the listing agree: the caller can open exactly
   * the documents their own list shows, and sees them as listed.
   */
  lemma GetDocumentMatchesListing(documents: map<DocumentId, Document>, bound: nat, caller: Option<UserId>,
                                  documentId: DocumentId, storageUrl: StorageId -> Option<string>)
    requires IdsBelow(documents, bound)
    ensures GetDocument(documents, caller, documentId, storageUrl).Some? <==>
      documentId in IdsOf(GetUserDocuments(documents, bound, caller))
    ensures forall row :: row in GetUserDocuments(documents, bound, caller) && row.id == documentId ==>
      GetDocument(documents, caller, documentId, storageUrl).value.document == row.value
  {
    var rows := GetUserDocuments(documents, bound, caller);
    forall row | row in rows && row.id == documentId
      ensures GetDocument(documents, caller, documentId, storageUrl).value.document == row.value
    {
      var k :| 0 <= k < |rows| && rows[k] == row;
    }
  }
}
