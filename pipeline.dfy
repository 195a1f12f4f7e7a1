/**
 * The document pipeline as functions over the store: `updateDocumentProgress`,
 * the six stages of the processing chain (each calling the next one when its
 * done-status is saved), and the request handlers that read or change records.
 * The chain's fire-and-forget calls run here one after another; the text
 * extractors and the model are oracles held by `Env`.
 */
module Pipeline {
  import opened Wrappers
  import opened JsRuntime
  import opened DocumentModel
  import opened AiService
  import opened ControllerPolicy

  /** The Socket.IO notifications, in emission order. */
  datatype Event = DocumentUpdated(doc: Document) | DocumentDeleted(id: DocId)

  /** The stored records by id, the events emitted so far, and the ids of the
      users that exist (an owner outside it populates as `null`). */
  datatype World = World(docs: map<DocId, Document>, events: seq<Event>, users: set<UserId>)

  /** What the code asks of the outside world: the text extractors, the model,
      `JSON.parse`, the formatted extraction duration, and the clock. */
  datatype Env = Env(
    extract: (Extractor, string) -> Outcome<string>,
    model: Model,
    parse: JsonParser,
    duration: string,
    now: int)

  /** The outcome of a stage's `try` block: it ran to its end, or it threw with
      a message after having stored what it had stored so far. */
  datatype Attempt = Done(world: World) | Threw(world: World, message: string)

  // ---------------------------------------------------------------------
  // updateDocumentProgress
  // ---------------------------------------------------------------------

  /** The record after the status is set and, for a non-empty message, one log
      entry is appended. */
  function Stamp(d: Document, status: Status, msg: string, now: int): (e: Document)
    ensures e == d.(status := status, logs := e.logs)
    ensures msg != "" ==> e.logs == d.logs + [LogEntry(now, msg)]
    ensures msg == "" ==> e.logs == d.logs
  {
    d.(status := status, logs := if msg != "" then d.logs + [LogEntry(now, msg)] else d.logs)
  }

  /** `updateDocumentProgress`: nothing at all happens for a missing record;
      otherwise the record gets the status, the log entry and the patch, is
      saved, and one `document_updated` event carries the saved record. A save
      that fails stores nothing and emits nothing; the error propagates. When it
      succeeds, and what the patch leaves in the record, `ProgressOutcome` states. */
  function Progress(w: World, id: DocId, status: Status, msg: string, patch: Patch, now: int): (r: Outcome<World>)
    ensures id !in w.docs ==> r == Ok(w)
    ensures id in w.docs && r.Ok? ==> id in r.value.docs
    ensures id in w.docs && r.Ok? ==>
      var d := r.value.docs[id];
      && r.value == World(w.docs[id := d], w.events + [DocumentUpdated(d)], w.users)
      && d.status == status
      && d.logs == w.docs[id].logs + (if msg != "" then [LogEntry(now, msg)] else [])
      && d.updatedAt == now
      && d.id == w.docs[id].id && d.owner == w.docs[id].owner && d.createdAt == w.docs[id].createdAt
      && RequiredPresent(d)
  {
    if id !in w.docs then Ok(w)
    else
      var stamped := Stamp(w.docs[id], status, msg, now);
      match Assign(stamped, patch)
      case Err(m) => Err(m)
      case Ok(merged) =>
        match Save(merged, now)
        case Err(m) => Err(m)
        case Ok(saved) => Ok(World(w.docs[id := saved], w.events + [DocumentUpdated(saved)], w.users))
  }

  /** An update of a stored record succeeds exactly when every supplied field
      casts and the required fields stay present; the stored record then holds
      the patch merged in. A failed cast or validation reports its message. */
  lemma ProgressOutcome(w: World, id: DocId, status: Status, msg: string, patch: Patch, now: int)
    requires id in w.docs
    ensures var a := Assign(Stamp(w.docs[id], status, msg, now), patch);
      Progress(w, id, status, msg, patch, now).Ok? <==> a.Ok? && RequiredPresent(a.value)
    ensures var r := Progress(w, id, status, msg, patch, now);
      r.Ok? ==> Merged(w.docs[id], patch, r.value.docs[id])
    ensures var a := Assign(Stamp(w.docs[id], status, msg, now), patch);
      a.Err? ==> Progress(w, id, status, msg, patch, now) == Err(a.message)
  {
    var stamped := Stamp(w.docs[id], status, msg, now);
    if Assign(stamped, patch).Ok? {
      AssignMerges(stamped, patch);
    }
  }

  /** The catch blocks' `updateDocumentProgress(docId, 'Failed', message)`. When
      that save fails too, the rejection is unhandled and nothing more happens. */
  function Fail(w: World, id: DocId, msg: string, now: int): World {
    match Progress(w, id, Failed, msg, NoPatch, now)
    case Ok(w1) => w1
    case Err(_) => w
  }

  /** The patches the stages pass to `updateDocumentProgress`. */
  function TextPatch(text: string): Patch { NoPatch.(extractedText := Some(text)) }
  function ClassificationPatch(kind: Json, score: Json): Patch {
    NoPatch.(classification := Some(kind), confidenceScore := Some(score))
  }
  function StructuredPatch(data: Json): Patch { NoPatch.(structuredData := Some(data)) }
  function SentimentPatch(sentiment: string): Patch { NoPatch.(sentiment := Some(sentiment)) }
  function NamePatch(name: string): Patch { NoPatch.(originalName := Some(name)) }
  function RoutePatch(dest: string): Patch { NoPatch.(routeDestination := Some(dest)) }
  function ResultsPatch(results: seq<SimilarityResult>): Patch { NoPatch.(similarityResults := Some(results)) }

  // ---------------------------------------------------------------------
  // The shape shared by the stages' `try` blocks
  // ---------------------------------------------------------------------

  /** What a stage's work yields when it does not throw: the done status, its
      log message and the fields to assign. */
  datatype Step = Step(status: Status, msg: string, patch: Patch)

  /** A stage's `try` block: save the pending status, do the work, save what the
      work yields; `late` is a throw that follows that last save (the routing
      notification's). The work reads only fields the pending save leaves alone,
      so it is given here as a value computed from the record as it was. */
  function Attempted(w: World, id: DocId, pending: Status, pendingMsg: string,
                     work: Outcome<Step>, late: Option<string>, now: int): Attempt
  {
    match Progress(w, id, pending, pendingMsg, NoPatch, now)
    case Err(m) => Threw(w, m)
    case Ok(w1) =>
      match work
      case Err(m) => Threw(w1, m)
      case Ok(step) =>
        match Progress(w1, id, step.status, step.msg, step.patch, now)
        case Err(m) => Threw(w1, m)
        case Ok(w2) =>
          match late
          case None => Done(w2)
          case Some(m) => Threw(w2, m)
  }

  // ---------------------------------------------------------------------
  // The chain: each stage calls the next one by name
  // ---------------------------------------------------------------------

  /** A stage of the chain, numbered by how many stages run from it on, itself
      included: the chain only ever calls a stage with a smaller number. */
  type Stage = k: int | 1 <= k <= 6 witness 1

  const Extraction: Stage := 6
  const Classification: Stage := 5
  const DataExtraction: Stage := 4
  const SentimentAnalysis: Stage := 3
  const FileRenaming: Stage := 2
  const Routing: Stage := 1

  /** The (fire-and-forget) call of stage `s` for record `id`. */
  function RunStage(s: Stage, w: World, id: DocId, env: Env): World
    decreases s, 1
  {
    if s == Extraction then ExtractionStage(w, id, env)
    else if s == Classification then ClassificationStage(w, id, env)
    else if s == DataExtraction then DataExtractionStage(w, id, env)
    else if s == SentimentAnalysis then SentimentStage(w, id, env)
    else if s == FileRenaming then RenamingStage(w, id, env)
    else RoutingStage(w, id, env)
  }

  // ---------------------------------------------------------------------
  // Extraction
  // ---------------------------------------------------------------------

  function ExtractedMessage(duration: string): string {
    "Extraction complete in " + duration + "s."
  }

  /** The work of `processExtraction`: the extractor chosen by the file type, on the stored file. */
  function ExtractionWork(d: Document, env: Env): Outcome<Step> {
    match env.extract(ExtractorFor(d.fileType), d.filePath)
    case Err(m) => Err(m)
    case Ok(text) => Ok(Step(Extracted, ExtractedMessage(env.duration), TextPatch(text)))
  }

  /** The `try` block of `processExtraction`. */
  function TryExtraction(w: World, id: DocId, env: Env): Attempt
    requires id in w.docs
  {
    Attempted(w, id, ExtractionPending, "Starting text extraction...", ExtractionWork(w.docs[id], env), None, env.now)
  }

  /** `processExtraction`, followed by the rest of the chain. */
  function ExtractionStage(w: World, id: DocId, env: Env): World
    decreases Extraction, 0
  {
    if id !in w.docs then w
    else
      match TryExtraction(w, id, env)
      case Done(w2) => RunStage(Classification, w2, id, env)
      case Threw(w1, m) => Fail(w1, id, "Extraction Error: " + m, env.now)
  }

  // ---------------------------------------------------------------------
  // Classification
  // ---------------------------------------------------------------------

  /** `classificationResult.type || 'Unclassified'` and `classificationResult.score || 0`;
      both reads throw when the result is `null`. */
  function ClassificationFields(result: Json): (r: Outcome<(Json, Json)>)
    ensures r.Err? <==> result.JNull?
    ensures r.Err? ==> r.message == NullReadMessage("type")
    ensures r.Ok? ==> Truthy(r.value.0)
    ensures r.Ok? && result.JObj? && "type" in result.fields && Truthy(result.fields["type"])
      ==> r.value.0 == result.fields["type"]
    ensures r.Ok? && !(result.JObj? && "type" in result.fields && Truthy(result.fields["type"]))
      ==> r.value.0 == JStr("Unclassified")
    ensures r.Ok? && result.JObj? && "score" in result.fields && Truthy(result.fields["score"])
      ==> r.value.1 == result.fields["score"]
    ensures r.Ok? && !(result.JObj? && "score" in result.fields && Truthy(result.fields["score"]))
      ==> r.value.1 == JNum(0)
  {
    match GetProp(result, "type")
    case Err(m) => Err(m)
    case Ok(kind) =>
      match GetProp(result, "score")
      case Err(m) => Err(m)
      case Ok(score) =>
        Ok((if PropTruthy(kind) then kind.value else JStr("Unclassified"),
            if PropTruthy(score) then score.value else JNum(0)))
  }

  function ClassifiedMessage(kind: Json, score: Json): string {
    "Classified as " + JsToString(kind) + " with " + JsToString(score) + "% confidence."
  }

  /** The work of `processClassification`: the model's classification of the text. */
  function ClassificationWork(d: Document, env: Env): Outcome<Step> {
    match ClassificationFields(ClassifyText(d.extractedText, env.model, env.parse))
    case Err(m) => Err(m)
    case Ok(fields) =>
      Ok(Step(Classified, ClassifiedMessage(fields.0, fields.1), ClassificationPatch(fields.0, fields.1)))
  }

  /** The `try` block of `processClassification`. */
  function TryClassification(w: World, id: DocId, env: Env): Attempt
    requires id in w.docs
  {
    Attempted(w, id, ClassificationPending, "Classifying document...", ClassificationWork(w.docs[id], env), None, env.now)
  }

  /** `processClassification`: a complete no-op for a missing record or one
      without text; otherwise the stage, followed by the rest of the chain. */
  function ClassificationStage(w: World, id: DocId, env: Env): World
    decreases Classification, 0
  {
    if id !in w.docs || w.docs[id].extractedText == "" then w
    else
      match TryClassification(w, id, env)
      case Done(w2) => RunStage(DataExtraction, w2, id, env)
      case Threw(w1, m) => Fail(w1, id, "Classification Error: " + m, env.now)
  }

  // ---------------------------------------------------------------------
  // Data extraction
  // ---------------------------------------------------------------------

  /** The work of `processDataExtraction`, which never throws: the service turns
      every failure into a value. */
  function DataExtractionWork(d: Document, env: Env): Outcome<Step> {
    Ok(Step(DataExtracted, "Structured data extracted successfully.",
            StructuredPatch(ExtractStructuredData(d.extractedText, d.classification, env.model, env.parse))))
  }

  /** The `try` block of `processDataExtraction`. */
  function TryDataExtraction(w: World, id: DocId, env: Env): Attempt
    requires id in w.docs
  {
    Attempted(w, id, DataExtractionPending, "Extracting structured data...", DataExtractionWork(w.docs[id], env), None, env.now)
  }

  /** `processDataExtraction`: it checks only that the record exists. */
  function DataExtractionStage(w: World, id: DocId, env: Env): World
    decreases DataExtraction, 0
  {
    if id !in w.docs then w
    else
      match TryDataExtraction(w, id, env)
      case Done(w2) => RunStage(SentimentAnalysis, w2, id, env)
      case Threw(w1, m) => Fail(w1, id, "Data Extraction Error: " + m, env.now)
  }

  // ---------------------------------------------------------------------
  // Sentiment
  // ---------------------------------------------------------------------

  function SentimentMessage(sentiment: string): string {
    "Sentiment analyzed as: " + sentiment + "."
  }

  /** The work of `processSentimentAnalysis`, which never throws either. */
  function SentimentWork(d: Document, env: Env): Outcome<Step> {
    var sentiment := AnalyzeSentiment(d.extractedText, env.model);
    Ok(Step(Analyzed, SentimentMessage(sentiment), SentimentPatch(sentiment)))
  }

  /** The `try` block of `processSentimentAnalysis`. */
  function TrySentiment(w: World, id: DocId, env: Env): Attempt
    requires id in w.docs
  {
    Attempted(w, id, SentimentPending, "Analyzing sentiment...", SentimentWork(w.docs[id], env), None, env.now)
  }

  /** `processSentimentAnalysis`: a complete no-op for a missing record or one without text. */
  function SentimentStage(w: World, id: DocId, env: Env): World
    decreases SentimentAnalysis, 0
  {
    if id !in w.docs || w.docs[id].extractedText == "" then w
    else
      match TrySentiment(w, id, env)
      case Done(w2) => RunStage(FileRenaming, w2, id, env)
      case Threw(w1, m) => Fail(w1, id, "Sentiment Analysis Error: " + m, env.now)
  }

  // ---------------------------------------------------------------------
  // Renaming
  // ---------------------------------------------------------------------

  function RenamedMessage(name: string): string {
    "Document name updated to: " + name + "."
  }

  /** The work of `processFileRenaming`: the proposed name, sanitized. */
  function RenamingWork(d: Document): Outcome<Step> {
    match ProposedName(d)
    case Err(m) => Err(m)
    case Ok(name) =>
      var clean := SanitizeFilename(name);
      Ok(Step(Renamed, RenamedMessage(clean), NamePatch(clean)))
  }

  /** The `try` block of `processFileRenaming`. */
  function TryRenaming(w: World, id: DocId, env: Env): Attempt
    requires id in w.docs
  {
    Attempted(w, id, RenamingPending, "Generating new filename...", RenamingWork(w.docs[id]), None, env.now)
  }

  /** `processFileRenaming`: a failure is logged under `Renamed` and routing
      still runs, unless that log entry cannot be saved either. */
  function RenamingStage(w: World, id: DocId, env: Env): World
    decreases FileRenaming, 0
  {
    if id !in w.docs then w
    else
      var a := TryRenaming(w, id, env);
      var logged := if a.Done? then Ok(a.world)
                    else Progress(a.world, id, Renamed, "File renaming failed: " + a.message, NoPatch, env.now);
      match logged
      case Ok(w2) => RunStage(Routing, w2, id, env)
      case Err(_) => a.world
  }

  // ---------------------------------------------------------------------
  // Routing
  // ---------------------------------------------------------------------

  /** The work of `processRouting`: the destination for the classification. */
  function RoutingWork(d: Document): Outcome<Step> {
    var dest := RouteDestination(d.classification);
    Ok(Step(Routed, "Document routed: " + dest, RoutePatch(dest)))
  }

  /** The notification reads the owner's address after `Routed` is saved, which
      throws when the owner is gone. */
  function NotificationFailure(w: World, d: Document): Option<string> {
    if d.owner in w.users then None else Some(NullReadMessage("email"))
  }

  /** The `try` block of `processRouting`. */
  function TryRouting(w: World, id: DocId, env: Env): Attempt
    requires id in w.docs
  {
    Attempted(w, id, RoutingPending, "Applying routing rules...", RoutingWork(w.docs[id]),
              NotificationFailure(w, w.docs[id]), env.now)
  }

  /** `processRouting`, the last stage. */
  function RoutingStage(w: World, id: DocId, env: Env): World
    decreases Routing, 0
  {
    if id !in w.docs then w
    else
      match TryRouting(w, id, env)
      case Done(w2) => w2
      case Threw(w1, m) => Fail(w1, id, "Routing Error: " + m, env.now)
  }

  // ---------------------------------------------------------------------
  // Request handlers
  // ---------------------------------------------------------------------

  /** What a handler sends: a record, or `{message}`, or `{summary}`, or `{answer}`,
      with the status code. */
  datatype Response =
    | DocBody(code: int, doc: Document)
    | MessageBody(code: int, message: string)
    | SummaryBody(summary: string)
    | AnswerBody(answer: string)

  /** `uploadDocument`: 400 without a file; otherwise the new record is created
      with the default fields and one log entry naming the uploader, announced,
      sent back with 201, and run through the chain. A failed creation (a
      duplicate id, a missing required field) is a 500 and stores nothing. */
  function UploadDocument(w: World, file: Option<UploadedFile>, user: UserId, username: string,
                          newId: DocId, env: Env): (World, Response)
  {
    match file
    case None => (w, MessageBody(400, "No file uploaded."))
    case Some(f) =>
      var created := NewDocument(newId, f, user, ["Document received from user " + username + "."], env.now);
      if newId in w.docs then (w, MessageBody(500, "Server error during document creation."))
      else
        match Save(created, env.now)
        case Err(_) => (w, MessageBody(500, "Server error during document creation."))
        case Ok(saved) =>
          var w1 := World(w.docs[newId := saved], w.events + [DocumentUpdated(saved)], w.users);
          (ExtractionStage(w1, newId, env), DocBody(201, saved))
  }

  /** `summarizeDocument`. */
  function SummarizeDocument(w: World, id: DocId, user: UserId, env: Env): Response {
    match CheckDocAccess(w.docs, w.users, id, user)
    case Denied(code, m) => MessageBody(code, m)
    case Granted(d) =>
      if d.extractedText == "" then MessageBody(400, "No text to summarize.")
      else SummaryBody(SummarizeText(d.extractedText, env.model))
  }

  /** `askQuestion`: the question is checked before the record. */
  function AskQuestion(w: World, id: DocId, user: UserId, question: string, env: Env): Response {
    if question == "" then MessageBody(400, "A question is required.")
    else
      match CheckDocAccess(w.docs, w.users, id, user)
      case Denied(code, m) => MessageBody(code, m)
      case Granted(d) =>
        if d.extractedText == "" then MessageBody(400, "No extracted text for Q&A.")
        else AnswerBody(AnswerQuestion(d.extractedText, question, env.model))
  }

  /** `deleteDocument`: the record is removed and a `document_deleted` event names it. */
  function DeleteDocument(w: World, id: DocId, user: UserId): (World, Response) {
    match CheckDocAccess(w.docs, w.users, id, user)
    case Denied(code, m) => (w, MessageBody(code, m))
    case Granted(_) =>
      (World(w.docs - {id}, w.events + [DocumentDeleted(id)], w.users), MessageBody(200, "Document deleted"))
  }

  /** `reExtractDocument`: after the reply the chain restarts from extraction. */
  function ReExtractDocument(w: World, id: DocId, user: UserId, env: Env): (World, Response) {
    match CheckDocAccess(w.docs, w.users, id, user)
    case Denied(code, m) => (w, MessageBody(code, m))
    case Granted(_) => (ExtractionStage(w, id, env), MessageBody(200, "Re-extraction started."))
  }

  /** `reClassifyDocument`: after the reply the chain restarts from classification. */
  function ReClassifyDocument(w: World, id: DocId, user: UserId, env: Env): (World, Response) {
    match CheckDocAccess(w.docs, w.users, id, user)
    case Denied(code, m) => (w, MessageBody(code, m))
    case Granted(_) => (ClassificationStage(w, id, env), MessageBody(200, "Re-classification started."))
  }

  // ---------------------------------------------------------------------
  // Comparison
  // ---------------------------------------------------------------------

  /** `Document.find({_id: {$in: ids}, owner: user})`: the caller's records among
      the requested ids, each once, in the order of first request. */
  function FindTargets(docs: map<DocId, Document>, ids: seq<DocId>, user: UserId): (r: seq<Document>)
    ensures |r| <= |ids|
    ensures forall t :: t in r ==> t in docs.Values && t.owner == user
    decreases |ids|
  {
    if ids == [] then []
    else
      var before := FindTargets(docs, ids[..|ids| - 1], user);
      var x := ids[|ids| - 1];
      if x in ids[..|ids| - 1] || x !in docs || docs[x].owner != user then before
      else before + [docs[x]]
  }

  /** The entry one target contributes: none for the source itself or a target
      without text, otherwise its id, its name and the model's score. */
  function ScoreOne(sourceText: string, sourceId: DocId, t: Document, model: Model): seq<SimilarityResult> {
    if t.id == sourceId || t.extractedText == "" then []
    else [SimilarityResult(t.id, t.originalName, CompareTexts(sourceText, t.extractedText, model))]
  }

  /** The results of the comparison loop over `targets`, in target order. */
  function SimilarityResults(sourceText: string, sourceId: DocId, targets: seq<Document>, model: Model): (r: seq<SimilarityResult>)
    ensures |r| <= |targets|
    ensures forall k :: 0 <= k < |r| ==> r[k].comparedDocId != sourceId
    decreases |targets|
  {
    if targets == [] then []
    else SimilarityResults(sourceText, sourceId, targets[..|targets| - 1], model)
         + ScoreOne(sourceText, sourceId, targets[|targets| - 1], model)
  }

  function ComparingMessage(count: nat): string {
    "Comparing with " + IntToDecimal(count) + " document(s)..."
  }

  /** `compareDocuments`: any failure, the access check's included, is a 500
      "Comparison error."; a source without text is a 400; otherwise the status
      read at the start is written back twice, with two log entries, and the
      new results replace the old ones. */
  function CompareDocuments(w: World, sourceId: DocId, user: UserId, ids: seq<DocId>, env: Env): (World, Response) {
    match CheckDocAccess(w.docs, w.users, sourceId, user)
    case Denied(_, _) => (w, MessageBody(500, "Comparison error."))
    case Granted(src) =>
      if src.extractedText == "" then (w, MessageBody(400, "No text in source document."))
      else
        var targets := FindTargets(w.docs, ids, user);
        match Progress(w, sourceId, src.status, ComparingMessage(|targets|), NoPatch, env.now)
        case Err(_) => (w, MessageBody(500, "Comparison error."))
        case Ok(w1) =>
          var results := SimilarityResults(src.extractedText, sourceId, targets, env.model);
          match Progress(w1, sourceId, src.status, "Comparison complete.", ResultsPatch(results), env.now)
          case Err(_) => (w1, MessageBody(500, "Comparison error."))
          case Ok(w2) => (w2, DocBody(200, w2.docs[sourceId]))
  }

  /** `clearComparisonResults`: the results are emptied and the record saved and
      announced; no log entry and no status change. */
  function ClearComparisonResults(w: World, id: DocId, user: UserId, now: int): (World, Response) {
    match CheckDocAccess(w.docs, w.users, id, user)
    case Denied(code, m) => (w, MessageBody(code, m))
    case Granted(d) =>
      match Save(d.(similarityResults := []), now)
      case Err(m) => (w, MessageBody(500, m))
      case Ok(saved) => (World(w.docs[id := saved], w.events + [DocumentUpdated(saved)], w.users), DocBody(200, saved))
  }
}
