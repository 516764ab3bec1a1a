/**
 * The internal (server-only) document operations the analysis job uses:
 * an unchecked lookup, the two terminal patches, and the fan-out of an
 * analysis's key dates into deadlines. None of them checks a caller.
 */
module DocumentsInternal {
  import opened Wrappers
  import opened Schema
  import opened Store

  /** The stored document, or nothing; there is no ownership check. */
  function GetDocumentInternal(documents: map<DocumentId, Document>, documentId: DocumentId): (r: Option<Document>)
    ensures r.Some? <==> documentId in documents
    ensures r.Some? ==> r.value == documents[documentId]
  {
    if documentId in documents then Some(documents[documentId]) else None
  }

  /** The document after `saveAnalysisResult`'s patch. */
  function WithAnalysis(d: Document, analysis: AnalysisResult): (e: Document)
    ensures SameIdentity(d, e)
    ensures WellFormed(e) && e.status == Completed && e.analysisResult == Some(analysis)
  {
    d.(status := Completed, analysisResult := Some(analysis))
  }

  /** The document after `markAnalysisFailed`'s patch: only the status changes. */
  function MarkedFailed(d: Document): (e: Document)
    ensures SameIdentity(d, e)
    ensures e.status == Failed && e.analysisResult == d.analysisResult
    ensures WellFormed(e)
  {
    d.(status := Failed)
  }

  method SaveAnalysisResult(db: Database, documentId: DocumentId, analysis: AnalysisResult) returns (r: Result<(), Error>)
    requires db.Valid()
    modifies db
    ensures db.Valid()
    ensures r.Err? <==> documentId !in old(db.documents)
    ensures r.Err? ==> r.error == NonexistentRecord && unchanged(db)
    ensures r.Ok? ==> db.documents == old(db.documents)[documentId := WithAnalysis(old(db.documents)[documentId], analysis)]
    ensures Evolves(old(db.documents), db.documents)
    ensures db.deadlines == old(db.deadlines) && db.nextId == old(db.nextId) && db.scheduled == old(db.scheduled)
  {
    if documentId !in db.documents {
      return Err(NonexistentRecord);
    }
    db.PatchDocument(documentId, WithAnalysis(db.documents[documentId], analysis));
    r := Ok(());
  }

  /** Marks a document failed whatever its status was, completed included. */
  method MarkAnalysisFailed(db: Database, documentId: DocumentId) returns (r: Result<(), Error>)
    requires db.Valid()
    modifies db
    ensures db.Valid()
    ensures r.Err? <==> documentId !in old(db.documents)
    ensures r.Err? ==> r.error == NonexistentRecord && unchanged(db)
    ensures r.Ok? ==> db.documents == old(db.documents)[documentId := MarkedFailed(old(db.documents)[documentId])]
    ensures Evolves(old(db.documents), db.documents)
    ensures db.deadlines == old(db.deadlines) && db.nextId == old(db.nextId) && db.scheduled == old(db.scheduled)
  {
    if documentId !in db.documents {
      return Err(NonexistentRecord);
    }
    db.PatchDocument(documentId, MarkedFailed(db.documents[documentId]));
    r := Ok(());
  }

  const KeyDateDescription := "Important date from your document"

  /** The deadlines the fan-out inserts, one per key date, in key-date order. */
  function FanOut(keyDates: seq<KeyDate>, documentId: DocumentId, userId: UserId): (ds: seq<Deadline>)
  {
    seq(|keyDates|, i requires 0 <= i < |keyDates| =>
      Deadline(userId, Some(documentId), keyDates[i].name, KeyDateDescription,
               keyDates[i].date, keyDates[i].importance, false, false))
  }

  /** The i-th fanned-out deadline copies the i-th key date and the given owner and document. */
  lemma FanOutAt(keyDates: seq<KeyDate>, documentId: DocumentId, userId: UserId, i: nat)
    requires i < |keyDates|
    ensures |FanOut(keyDates, documentId, userId)| == |keyDates|
    ensures var d := FanOut(keyDates, documentId, userId)[i];
      && d.title == keyDates[i].name && d.dueDate == keyDates[i].date && d.importance == keyDates[i].importance
      && d.description == KeyDateDescription
      && !d.completed && !d.reminderSent
      && d.userId == userId && d.documentId == Some(documentId)
  {
  }

  /**
   * Inserts one deadline per key date, in order, with consecutive fresh
   * ids; existing deadlines are untouched and nothing is deduplicated.
   */
  method CreateDeadlinesFromAnalysis(db: Database, documentId: DocumentId, userId: UserId, keyDates: seq<KeyDate>)
    requires db.Valid()
    modifies db
    ensures db.Valid()
    ensures db.deadlines == InsertAll(old(db.deadlines), old(db.nextId), FanOut(keyDates, documentId, userId))
    ensures |db.deadlines| == |old(db.deadlines)| + |keyDates|
    ensures db.nextId == old(db.nextId) + |keyDates|
    ensures db.documents == old(db.documents) && db.scheduled == old(db.scheduled)
  {
    ghost var fanOut := FanOut(keyDates, documentId, userId);
    for i := 0 to |keyDates|
      invariant db.Valid()
      invariant db.nextId == old(db.nextId) + i
      invariant db.deadlines == InsertAll(old(db.deadlines), old(db.nextId), fanOut[..i])
      invariant db.documents == old(db.documents) && db.scheduled == old(db.scheduled)
    {
      var keyDate := keyDates[i];
      var _ := db.InsertDeadline(Deadline(userId, Some(documentId), keyDate.name, KeyDateDescription,
                                          keyDate.date, keyDate.importance, false, false));
      assert fanOut[..i + 1][..i] == fanOut[..i];
    }
    assert fanOut[..|keyDates|] == fanOut;
    InsertAllSize(old(db.deadlines), old(db.nextId), fanOut);
  }

  /** The fan-out does not deduplicate: running it twice adds two deadlines per key date. */
  method FanOutTwiceDuplicates(db: Database, documentId: DocumentId, userId: UserId, keyDates: seq<KeyDate>)
    requires db.Valid()
    modifies db
    ensures db.Valid()
    ensures |db.deadlines| == |old(db.deadlines)| + 2 * |keyDates|
    ensures forall id :: id in old(db.deadlines) ==> id in db.deadlines && db.deadlines[id] == old(db.deadlines)[id]
  {
    CreateDeadlinesFromAnalysis(db, documentId, userId, keyDates);
    CreateDeadlinesFromAnalysis(db, documentId, userId, keyDates);
  }
}
