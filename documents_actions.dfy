/**
 * The analysis job: load the document, fetch its file, ask the extraction
 * model with a prompt chosen by document type, extract the JSON object from
 * the model's text (or fall back to a degraded result), save it and fan its
 * key dates out into deadlines; any failure on the way marks the document
 * failed.
 */
module DocumentsActions {
  import opened Wrappers
  import opened Schema
  import opened Store
  import opened DocumentsInternal

  // ---------------------------------------------------------------------
  // Locating the JSON object in the model's text: the greedy match of
  // `\{[\s\S]*\}`, which runs from the first `{` to the last `}`.
  // ---------------------------------------------------------------------

  /** The position of the first `c` in `s`. */
  function FirstIndexOf(s: string, c: char): (r: Option<nat>)
    ensures r.None? <==> c !in s
    ensures r.Some? ==> r.value < |s| && s[r.value] == c && c !in s[..r.value]
  {
    if s == [] then None
    else if s[0] == c then Some(0)
    else
      match FirstIndexOf(s[1..], c)
      case None => None
      case Some(i) =>
        assert s[..i + 1] == [s[0]] + s[1..][..i];
        Some(i + 1)
  }

  /** The position of the last `c` in `s`. */
  function LastIndexOf(s: string, c: char): (r: Option<nat>)
    ensures r.None? <==> c !in s
    ensures r.Some? ==> r.value < |s| && s[r.value] == c && c !in s[r.value + 1..]
  {
    if s == [] then None
    else if s[|s| - 1] == c then Some(|s| - 1)
    else
      var init := s[..|s| - 1];
      match LastIndexOf(init, c)
      case None =>
        assert s == init + [s[|s| - 1]];
        None
      case Some(i) =>
        assert s[i + 1..] == init[i + 1..] + [s[|s| - 1]];
        Some(i)
  }

  /** A `c` at `k` with none before it is the first one. */
  lemma {:induction false} FirstIndexAt(s: string, c: char, k: nat)
    requires k < |s| && s[k] == c && c !in s[..k]
    ensures FirstIndexOf(s, c) == Some(k)
  {
    if k > 0 {
      assert s[0] == s[..k][0];
      assert s[1..][..k - 1] == s[..k][1..];
      FirstIndexAt(s[1..], c, k - 1);
    }
  }

  /** A `c` at `k` with none after it is the last one. */
  lemma {:induction false} LastIndexAt(s: string, c: char, k: nat)
    requires k < |s| && s[k] == c && c !in s[k + 1..]
    ensures LastIndexOf(s, c) == Some(k)
    decreases |s|
  {
    if k < |s| - 1 {
      assert s[|s| - 1] == s[k + 1..][|s| - 1 - (k + 1)];
      var init := s[..|s| - 1];
      assert init[k + 1..] <= s[k + 1..];
      LastIndexAt(init, c, k);
    }
  }

  /**
   * The span `[start, end)` of the regular-expression match: it opens on
   * the text's first `{` and closes on its last `}`, and there is one
   * exactly when some `{` comes before some `}`.
   */
  function JsonMatch(text: string): (r: Option<(nat, nat)>)
    ensures r.None? <==> !exists i, j :: 0 <= i < j < |text| && text[i] == '{' && text[j] == '}'
    ensures r.Some? ==>
      && r.value.0 < r.value.1 <= |text|
      && text[r.value.0] == '{' && '{' !in text[..r.value.0]
      && text[r.value.1 - 1] == '}' && '}' !in text[r.value.1..]
  {
    var first := FirstIndexOf(text, '{');
    var last := LastIndexOf(text, '}');
    if first.Some? && last.Some? && first.value < last.value then
      Some((first.value, last.value + 1))
    else
      None
  }

  /** The match runs from the first `{` to the last `}` when those are in order. */
  lemma JsonMatchFrom(text: string, open: nat, close: nat)
    requires FirstIndexOf(text, '{') == Some(open) && LastIndexOf(text, '}') == Some(close)
    requires open < close
    ensures JsonMatch(text) == Some((open, close + 1))
  {
  }

  /** In prose around an object, the first `{` is the one opening the object. */
  lemma OpeningBraceOfProse(prefix: string, json: string, suffix: string)
    requires json != [] && json[0] == '{' && '{' !in prefix
    ensures FirstIndexOf(prefix + json + suffix, '{') == Some(|prefix|)
  {
    var text := prefix + json + suffix;
    assert text[..|prefix|] == prefix;
    FirstIndexAt(text, '{', |prefix|);
  }

  /** In prose around an object, the last `}` is the one closing the object. */
  lemma ClosingBraceOfProse(prefix: string, json: string, suffix: string)
    requires json != [] && json[|json| - 1] == '}' && '}' !in suffix
    ensures LastIndexOf(prefix + json + suffix, '}') == Some(|prefix| + |json| - 1)
  {
    var text := prefix + json + suffix;
    assert text[|prefix| + |json|..] == suffix;
    LastIndexAt(text, '}', |prefix| + |json| - 1);
  }

  /**
   * The match is the whole JSON object when the text around it holds no
   * `{` before and no `}` after, as in a reply that wraps the object in prose.
   */
  lemma {:induction false} JsonMatchInProse(prefix: string, json: string, suffix: string)
    requires |json| >= 2 && json[0] == '{' && json[|json| - 1] == '}'
    requires '{' !in prefix && '}' !in suffix
    ensures JsonMatch(prefix + json + suffix) == Some((|prefix|, |prefix| + |json|))
    ensures (prefix + json + suffix)[|prefix|..|prefix| + |json|] == json
  {
    OpeningBraceOfProse(prefix, json, suffix);
    ClosingBraceOfProse(prefix, json, suffix);
    JsonMatchFrom(prefix + json + suffix, |prefix|, |prefix| + |json| - 1);
  }

  // ---------------------------------------------------------------------
  // parseAnalysisResult
  // ---------------------------------------------------------------------

  /**
   * A value `JSON.parse` produced, seen only through whether it has the
   * shape the analysis-result validator accepts.
   */
  datatype Json = Conforming(analysis: AnalysisResult) | Nonconforming

  const SummaryPrefixLength := 200
  const FallbackNextSteps := ["Review the document carefully", "Consult with an immigration attorney"]
  const FallbackWarnings := ["Unable to fully parse document. Please review manually."]

  /** The degraded result built from the raw text when no JSON object can be read from it. */
  function Fallback(text: string): (r: AnalysisResult)
    ensures |r.summary| == 3 + (if |text| < SummaryPrefixLength then |text| else SummaryPrefixLength)
    ensures r.summary[..|r.summary| - 3] <= text && r.summary[|r.summary| - 3..] == "..."
    ensures |text| <= SummaryPrefixLength ==> r.summary == text + "..."
    ensures r.keyDates == [] && r.nextSteps == FallbackNextSteps && r.warnings == FallbackWarnings
    ensures r.details.Keys == {"rawText"} && r.details["rawText"] == text
  {
    var shown := if |text| < SummaryPrefixLength then text else text[..SummaryPrefixLength];
    AnalysisResult(shown + "...", [], FallbackNextSteps, FallbackWarnings, map["rawText" := text])
  }

  /**
   * The analysis read from the model's text: what `jsonParse` makes of the
   * matched object when there is one and it parses, else the fallback.
   * Parse errors are absorbed; the result is never an error.
   */
  function ParseAnalysisResult(text: string, jsonParse: string -> Option<Json>): (r: Json)
    ensures JsonMatch(text).None? ==> r == Conforming(Fallback(text))
    ensures JsonMatch(text).Some? ==>
      var (start, end) := JsonMatch(text).value;
      r == (match jsonParse(text[start..end]) case Some(v) => v case None => Conforming(Fallback(text)))
    ensures r.Nonconforming? ==> JsonMatch(text).Some?
  {
    match JsonMatch(text)
    case None => Conforming(Fallback(text))
    case Some((start, end)) =>
      match jsonParse(text[start..end])
      case Some(v) => v
      case None => Conforming(Fallback(text))
  }

  /** Text with no `{` at all, such as plain prose, always yields the fallback. */
  lemma ProseGivesFallback(text: string, jsonParse: string -> Option<Json>)
    requires '{' !in text
    ensures ParseAnalysisResult(text, jsonParse) == Conforming(Fallback(text))
  {
    assert forall i :: 0 <= i < |text| ==> text[i] != '{';
  }

  /** An object wrapped in prose is handed to the parser whole, and its parse is the result. */
  lemma {:induction false} WrappedJsonParsed(prefix: string, json: string, suffix: string, jsonParse: string -> Option<Json>)
    requires |json| >= 2 && json[0] == '{' && json[|json| - 1] == '}'
    requires '{' !in prefix && '}' !in suffix
    requires jsonParse(json).Some?
    ensures ParseAnalysisResult(prefix + json + suffix, jsonParse) == jsonParse(json).value
  {
    JsonMatchInProse(prefix, json, suffix);
  }

  // ---------------------------------------------------------------------
  // getAnalysisPrompt
  // ---------------------------------------------------------------------

  /** The JSON-envelope prompt every analysis request starts with. (Long texts are written in short pieces.) */
  const BasePrompt :=
    "Analyze this immigration document "
    + "and extract key information. "
    + "Return your response "
    + "in the following JSON format:\n"
    + "{\n"
    + "  \"summary\": "
    + "\"Brief 2-3 sentence summary of the document\",\n"
    + "  \"keyDates\": [\n"
    + "    {\n"
    + "      \"label\": \"Date description\",\n"
    + "      \"date\": \"YYYY-MM-DD\",\n"
    + "      \"importance\": \"critical|important|info\"\n"
    + "    }\n"
    + "  ],\n"
    + "  \"nextSteps\": [\"Step 1\", \"Step 2\", \"Step 3\"],\n"
    + "  \"warnings\": [\"Warning 1\", \"Warning 2\"],\n"
    + "  \"details\": {\n"
    + "    // Document-specific fields\n"
    + "  }\n"
    + "}"

  /** The closing line of each type's instructions: the fields its `details` object must hold. */
  function DetailsFieldList(t: DocType): string
  {
    match t
    case I94 =>
      "In the details object, include: "
      + "admissionNumber, entryDate, admitUntilDate, "
      + "classOfAdmission, portOfEntry"
    case I20 =>
      "In the details object, include: "
      + "sevisId, schoolName, programStartDate, "
      + "programEndDate, degreeLevel, major"
    case H1B =>
      "In the details object, include: "
      + "receiptNumber, validityStart, validityEnd, "
      + "employerName, jobTitle"
  }

  /** The items the model is asked to extract from a document of type `t`. */
  function ExtractionItems(t: DocType): string
  {
    match t
    case I94 =>
      "- Admission number\n"
      + "- Entry date\n"
      + "- Admit until date (or D/S for duration of status)\n"
      + "- Class of admission (visa type)\n"
      + "- Port of entry\n"
      + "- Any important warnings about status expiration"
    case I20 =>
      "- SEVIS ID\n"
      + "- Program start and end dates\n"
      + "- School name\n"
      + "- Degree level and major\n"
      + "- OPT/CPT eligibility dates\n"
      + "- Travel signature expiration\n"
      + "- Any important warnings about maintaining F-1 status"
    case H1B =>
      "- Petition receipt number\n"
      + "- Validity period (start and end dates)\n"
      + "- Employer name\n"
      + "- Job title\n"
      + "- Prevailing wage\n"
      + "- Any important warnings about status maintenance"
  }

  /** `a + b` starts with `a`, continues with `b`, and ends with any suffix `b` ends with. */
  lemma ConcatLayout(a: string, b: string, suffix: string)
    requires |suffix| <= |b| && b[|b| - |suffix|..] == suffix
    ensures a <= a + b && (a + b)[|a|..] == b
    ensures |suffix| <= |a + b| && (a + b)[|a + b| - |suffix|..] == suffix
  {
    assert (a + b)[|a + b| - |suffix|..] == b[|b| - |suffix|..];
  }

  /** Where the type's name and the field list sit in the type-specific part of the prompt. */
  lemma InstructionsLayout(name: string, items: string, fields: string)
    requires |name| == 4
    ensures var s := "\n\nFor " + name + " documents, extract:\n" + items + "\n\n" + fields;
      && |s| >= 10 && s[6..10] == name
      && |fields| <= |s| && s[|s| - |fields|..] == fields
  {
    var head := "\n\nFor " + name + " documents, extract:\n" + items + "\n\n";
    assert (head + fields)[6..10] == head[6..10];
  }

  /**
   * The type-specific part of the prompt: a blank line, the extraction
   * heading naming the type, the items, a blank line, the details-field list.
   */
  function TypeInstructions(t: DocType): (s: string)
    ensures |s| >= 10 && s[6..10] == DocTypeLiteral(t)
    ensures |DetailsFieldList(t)| <= |s| && s[|s| - |DetailsFieldList(t)|..] == DetailsFieldList(t)
  {
    InstructionsLayout(DocTypeLiteral(t), ExtractionItems(t), DetailsFieldList(t));
    "\n\nFor " + DocTypeLiteral(t) + " documents, extract:\n" + ExtractionItems(t) + "\n\n" + DetailsFieldList(t)
  }

  /**
   * The prompt for a document type: the JSON-envelope prompt, then the
   * instructions for that type, ending with its details-field list.
   */
  function GetAnalysisPrompt(t: DocType): (prompt: string)
    ensures BasePrompt <= prompt
    ensures prompt[|BasePrompt|..] == TypeInstructions(t)
    ensures |DetailsFieldList(t)| <= |prompt| && prompt[|prompt| - |DetailsFieldList(t)|..] == DetailsFieldList(t)
  {
    ConcatLayout(BasePrompt, TypeInstructions(t), DetailsFieldList(t));
    BasePrompt + TypeInstructions(t)
  }

  /** Different document types get different prompts: each names its own type. */
  lemma GetAnalysisPromptInjective(a: DocType, b: DocType)
    requires a != b
    ensures GetAnalysisPrompt(a) != GetAnalysisPrompt(b)
  {
    DocTypeRoundTrip(a);
    DocTypeRoundTrip(b);
  }

  // ---------------------------------------------------------------------
  // analyzeDocument
  // ---------------------------------------------------------------------

  /** The fetched file: its MIME type and bytes. */
  datatype Blob = Blob(mimeType: string, bytes: seq<bv8>)

  /**
   * The collaborators the analysis job calls, each either answering or
   * failing (`None`): the storage URL lookup, the HTTP fetch of the file,
   * the API key from the environment, the extraction model (given the key,
   * the file and the prompt), `JSON.parse`, and whether the fan-out
   * mutation commits.
   */
  datatype Services = Services(
    storageUrl: StorageId -> Option<string>,
    fetch: string -> Option<Blob>,
    apiKey: Option<string>,
    generate: (string, Blob, string) -> Option<string>,
    jsonParse: string -> Option<Json>,
    fanOutCommits: bool)

  /** How far the job gets before it writes to the document. */
  datatype Attempt =
    | Analyzed(analysis: AnalysisResult)   // a result that saveAnalysisResult accepts
    | UpstreamFailed                       // no file URL, no file, no API key, or no model reply
    | Rejected                             // the model's JSON does not fit the analysis-result shape

  /**
   * The outcome of the steps before the save. A URL or API key that is
   * missing or empty counts as absent, as JavaScript's falsy test does.
   */
  function AttemptAnalysis(document: Document, env: Services): (a: Attempt)
    ensures a.UpstreamFailed? <==>
      || env.storageUrl(document.fileId) in {None, Some("")}
      || env.fetch(env.storageUrl(document.fileId).value).None?
      || env.apiKey in {None, Some("")}
      || env.generate(env.apiKey.value, env.fetch(env.storageUrl(document.fileId).value).value,
                      GetAnalysisPrompt(document.docType)).None?
    ensures !a.UpstreamFailed? ==>
      var text := env.generate(env.apiKey.value, env.fetch(env.storageUrl(document.fileId).value).value,
                               GetAnalysisPrompt(document.docType)).value;
      match ParseAnalysisResult(text, env.jsonParse)
      case Conforming(analysis) => a == Analyzed(analysis)
      case Nonconforming => a == Rejected
  {
    var url := env.storageUrl(document.fileId);
    if url.None? || url.value == "" then UpstreamFailed
    else
      var blob := env.fetch(url.value);
      if blob.None? then UpstreamFailed
      else if env.apiKey.None? || env.apiKey.value == "" then UpstreamFailed
      else
        var reply := env.generate(env.apiKey.value, blob.value, GetAnalysisPrompt(document.docType));
        if reply.None? then UpstreamFailed
        else
          match ParseAnalysisResult(reply.value, env.jsonParse)
          case Conforming(analysis) => Analyzed(analysis)
          case Nonconforming => Rejected
  }

  /**
   * The steps of the job before the save: look up the file's URL, fetch
   * it, check the API key, call the model with the type's prompt, and read
   * the reply.
   */
  method RequestAnalysis(document: Document, env: Services) returns (attempt: Attempt)
    ensures attempt == AttemptAnalysis(document, env)
  {
    var fileUrl := env.storageUrl(document.fileId);
    if fileUrl.None? || fileUrl.value == "" {
      return UpstreamFailed;
    }
    var blob := env.fetch(fileUrl.value);
    if blob.None? {
      return UpstreamFailed;
    }
    if env.apiKey.None? || env.apiKey.value == "" {
      return UpstreamFailed;
    }
    var prompt := GetAnalysisPrompt(document.docType);
    var reply := env.generate(env.apiKey.value, blob.value, prompt);
    if reply.None? {
      return UpstreamFailed;
    }
    var parsed := ParseAnalysisResult(reply.value, env.jsonParse);
    if parsed.Conforming? {
      attempt := Analyzed(parsed.analysis);
    } else {
      attempt := Rejected;
    }
  }

  /**
   * The tables after the job has recorded `attempt` for the existing
   * document `documentId` owned by `userId`. On success the document is
   * completed and one deadline per key date is inserted at fresh ids; if
   * the fan-out does not commit, the saved document is then marked failed
   * and keeps its result, with no deadline added. Any earlier failure only
   * marks the document failed.
   */
  ghost predicate Recorded(
    documents: map<DocumentId, Document>, deadlines: map<DeadlineId, Deadline>, nextId: nat,
    documents': map<DocumentId, Document>, deadlines': map<DeadlineId, Deadline>, nextId': nat,
    documentId: DocumentId, userId: UserId, attempt: Attempt, fanOutCommits: bool)
    requires documentId in documents
  {
    var before := documents[documentId];
    match attempt
    case Analyzed(analysis) =>
      if fanOutCommits then
        && documents' == documents[documentId := WithAnalysis(before, analysis)]
        && deadlines' == InsertAll(deadlines, nextId, FanOut(analysis.keyDates, documentId, userId))
        && nextId' == nextId + |analysis.keyDates|
      else
        && documents' == documents[documentId := MarkedFailed(WithAnalysis(before, analysis))]
        && deadlines' == deadlines && nextId' == nextId
    case _ =>
      && documents' == documents[documentId := MarkedFailed(before)]
      && deadlines' == deadlines && nextId' == nextId
  }

  /**
   * The rest of the job for a document that exists: save the analysis and
   * fan its key dates out, or, when anything failed, mark the document
   * failed. A fan-out that does not commit inserts nothing and also ends in
   * the catch block, after the save.
   */
  method RecordAttempt(db: Database, documentId: DocumentId, userId: UserId, attempt: Attempt, fanOutCommits: bool)
    requires db.Valid() && documentId in db.documents
    modifies db
    ensures db.Valid()
    ensures Evolves(old(db.documents), db.documents)
    ensures db.scheduled == old(db.scheduled)
    ensures Recorded(old(db.documents), old(db.deadlines), old(db.nextId), db.documents, db.deadlines, db.nextId,
                     documentId, userId, attempt, fanOutCommits)
  {
    if attempt.Analyzed? {
      var _ := SaveAnalysisResult(db, documentId, attempt.analysis);
      if fanOutCommits {
        CreateDeadlinesFromAnalysis(db, documentId, userId, attempt.analysis.keyDates);
      } else {
        var _ := MarkAnalysisFailed(db, documentId);
      }
    } else {
      var _ := MarkAnalysisFailed(db, documentId);
    }
  }

  /**
   * The analysis job for `documentId`. A missing document is the one error
   * that escapes, and then nothing is written. Otherwise every failure is
   * absorbed by marking the document failed: before the save, the document
   * keeps no new result and gets no deadlines; after the save, a fan-out
   * that does not commit leaves it failed with the result it was just given.
   */
  method AnalyzeDocument(db: Database, documentId: DocumentId, env: Services) returns (r: Result<(), Error>)
    requires db.Valid()
    modifies db
    ensures db.Valid()
    ensures Evolves(old(db.documents), db.documents)
    ensures db.scheduled == old(db.scheduled)
    ensures documentId !in old(db.documents) ==> r == Err(DocumentNotFound) && unchanged(db)
    ensures documentId in old(db.documents) ==> r == Ok(())
    ensures documentId in old(db.documents) ==>
      var before := old(db.documents)[documentId];
      Recorded(old(db.documents), old(db.deadlines), old(db.nextId), db.documents, db.deadlines, db.nextId,
               documentId, before.userId, AttemptAnalysis(before, env), env.fanOutCommits)
  {
    var found := GetDocumentInternal(db.documents, documentId);
    if found.None? {
      return Err(DocumentNotFound);
    }
    var document := found.value;
    var attempt := RequestAnalysis(document, env);
    RecordAttempt(db, documentId, document.userId, attempt, env.fanOutCommits);
    r := Ok(());
  }

  /**
   * Runs the oldest scheduled analysis job, if any, taking it off the
   * queue. Stands in for the platform's scheduler, which runs each
   * scheduled job once.
   */
  method RunNextScheduled(db: Database, env: Services) returns (ran: Option<Result<(), Error>>)
    requires db.Valid()
    modifies db
    ensures db.Valid()
    ensures Evolves(old(db.documents), db.documents)
    ensures old(db.scheduled) == [] <==> ran.None?
    ensures ran.None? ==> unchanged(db)
    ensures ran.Some? ==> db.scheduled == old(db.scheduled)[1..]
    ensures ran.Some? && old(db.scheduled)[0] !in old(db.documents) ==>
      && ran.value == Err(DocumentNotFound)
      && db.documents == old(db.documents) && db.deadlines == old(db.deadlines) && db.nextId == old(db.nextId)
    ensures ran.Some? && old(db.scheduled)[0] in old(db.documents) ==>
      var documentId := old(db.scheduled)[0];
      var before := old(db.documents)[documentId];
      && ran.value == Ok(())
      && Recorded(old(db.documents), old(db.deadlines), old(db.nextId), db.documents, db.deadlines, db.nextId,
                  documentId, before.userId, AttemptAnalysis(before, env), env.fanOutCommits)
  {
    if db.scheduled == [] {
      return None;
    }
    var next := db.TakeScheduled();
    var outcome := AnalyzeDocument(db, next.value, env);
    ran := Some(outcome);
  }
}
