/**
 * The record shapes and enumerations of the two application tables,
 * `documents` and `deadlines`, and the invariant that ties a document's
 * status to its analysis result.
 */
module Schema {
  import opened Wrappers

  /** Opaque identifiers. Record ids are issued by one counter, so a larger id is a newer record. */
  type UserId = nat
  type DocumentId = nat
  type DeadlineId = nat
  type StorageId = nat

  datatype DocType = I94 | I20 | H1B

  datatype Status = Processing | Completed | Failed

  datatype Importance = Critical | Important | Info

  /** A key date; its `label` field is called `name` here (`label` is a Dafny keyword). */
  datatype KeyDate = KeyDate(name: string, date: string, importance: Importance)

  /** The untyped `details` object, seen as an open string-keyed mapping. */
  type Details = map<string, string>

  datatype AnalysisResult = AnalysisResult(
    summary: string,
    keyDates: seq<KeyDate>,
    nextSteps: seq<string>,
    warnings: seq<string>,
    details: Details)

  datatype Document = Document(
    userId: UserId,
    docType: DocType,
    fileName: string,
    fileId: StorageId,
    uploadedAt: int,
    status: Status,
    analysisResult: Option<AnalysisResult>)

  datatype Deadline = Deadline(
    userId: UserId,
    documentId: Option<DocumentId>,
    title: string,
    description: string,
    dueDate: string,
    importance: Importance,
    completed: bool,
    reminderSent: bool)

  /** A record as a query returns it: the stored value with its `_id`. */
  datatype Stored<T> = Stored(id: nat, value: T)

  /**
   * A document still in processing carries no analysis result, and a
   * completed one always carries one. A failed document may carry one or not.
   */
  ghost predicate WellFormed(d: Document)
  {
    && (d.status == Processing ==> d.analysisResult.None?)
    && (d.status == Completed ==> d.analysisResult.Some?)
  }

  /** Identity fields of a document, which no operation changes after insertion. */
  ghost predicate SameIdentity(before: Document, after: Document)
  {
    && after.userId == before.userId
    && after.docType == before.docType
    && after.fileName == before.fileName
    && after.fileId == before.fileId
    && after.uploadedAt == before.uploadedAt
  }

  /**
   * How the documents table may evolve: no document disappears, identity
   * fields stay fixed, and a document that has left `processing` never
   * returns to it.
   */
  ghost predicate Evolves(before: map<DocumentId, Document>, after: map<DocumentId, Document>)
  {
    forall id :: id in before ==>
      && id in after
      && SameIdentity(before[id], after[id])
      && (before[id].status != Processing ==> after[id].status != Processing)
  }

  lemma EvolvesTransitive(a: map<DocumentId, Document>, b: map<DocumentId, Document>, c: map<DocumentId, Document>)
    requires Evolves(a, b) && Evolves(b, c)
    ensures Evolves(a, c)
  {
  }

  /** The string literals of the `type` validator. */
  function DocTypeLiteral(t: DocType): string
  {
    match t
    case I94 => "I-94"
    case I20 => "I-20"
    case H1B => "H-1B"
  }

  /** The `type` validator: accepts exactly the three literals. */
  function ParseDocType(s: string): (r: Option<DocType>)
    ensures r.Some? <==> s == "I-94" || s == "I-20" || s == "H-1B"
    ensures r.Some? ==> DocTypeLiteral(r.value) == s
  {
    if s == "I-94" then Some(I94)
    else if s == "I-20" then Some(I20)
    else if s == "H-1B" then Some(H1B)
    else None
  }

  lemma DocTypeRoundTrip(t: DocType)
    ensures ParseDocType(DocTypeLiteral(t)) == Some(t)
  {
  }

  /** The string literals of the `status` validator. */
  function StatusLiteral(s: Status): string
  {
    match s
    case Processing => "processing"
    case Completed => "completed"
    case Failed => "failed"
  }

  function ParseStatus(s: string): (r: Option<Status>)
    ensures r.Some? <==> s == "processing" || s == "completed" || s == "failed"
    ensures r.Some? ==> StatusLiteral(r.value) == s
  {
    if s == "processing" then Some(Processing)
    else if s == "completed" then Some(Completed)
    else if s == "failed" then Some(Failed)
    else None
  }

  lemma StatusRoundTrip(s: Status)
    ensures ParseStatus(StatusLiteral(s)) == Some(s)
  {
  }

  /** The string literals of the `importance` validator, shared by key dates and deadlines. */
  function ImportanceLiteral(i: Importance): string
  {
    match i
    case Critical => "critical"
    case Important => "important"
    case Info => "info"
  }

  function ParseImportance(s: string): (r: Option<Importance>)
    ensures r.Some? <==> s == "critical" || s == "important" || s == "info"
    ensures r.Some? ==> ImportanceLiteral(r.value) == s
  {
    if s == "critical" then Some(Critical)
    else if s == "important" then Some(Important)
    else if s == "info" then Some(Info)
    else None
  }

  lemma ImportanceRoundTrip(i: Importance)
    ensures ParseImportance(ImportanceLiteral(i)) == Some(i)
  {
  }
}
