/**
 * The controller as it runs: a store whose records, event log and users are
 * fields updated in place. `UpdateDocumentProgress` reads the record, changes
 * it step by step and saves it; each stage saves its pending status, does its
 * work, saves the result and calls the next stage; the comparison scores its
 * targets in a loop. Every method is proved to leave the store exactly as the
 * corresponding function of `Pipeline` describes.
 */
module Store {
  import opened Wrappers
  import opened JsRuntime
  import opened DocumentModel
  import opened AiService
  import opened ControllerPolicy
  import opened Pipeline
  import opened PipelineProperties

  class DocumentStore {
    var docs: map<DocId, Document>
    var events: seq<Event>
    var users: set<UserId>

    /** The store as a value. */
    function State(): World
      reads this
    {
      World(docs, events, users)
    }

    constructor (w: World)
      ensures State() == w
    {
      docs, events, users := w.docs, w.events, w.users;
    }

    /** `updateDocumentProgress`: returns the error a failed save throws and
        stores nothing then. */
    method UpdateDocumentProgress(id: DocId, status: Status, msg: string, patch: Patch, now: int)
      returns (error: Option<string>)
      modifies this
      ensures var r := Progress(old(State()), id, status, msg, patch, now);
        && (r.Ok? ==> error == None && State() == r.value)
        && (r.Err? ==> error == Some(r.message) && State() == old(State()))
    {
      if id !in docs {
        return None;
      }
      var d := docs[id];
      d := d.(status := status);
      if msg != "" {
        d := d.(logs := d.logs + [LogEntry(now, msg)]);
      }
      var merged := Assign(d, patch);
      if merged.Err? {
        return Some(merged.message);
      }
      var saved := Save(merged.value, now);
      if saved.Err? {
        return Some(saved.message);
      }
      docs := docs[id := saved.value];
      events := events + [DocumentUpdated(saved.value)];
      return None;
    }

    /** A catch block's update, whose own failure is left unhandled. */
    method Fail(id: DocId, msg: string, now: int)
      modifies this
      ensures State() == Pipeline.Fail(old(State()), id, msg, now)
    {
      var _ := UpdateDocumentProgress(id, Failed, msg, NoPatch, now);
    }

    /** A stage's `try` block: the pending save, the work, the done save and a
        throw that may follow it; returns the message of the first throw. */
    method Attempt(id: DocId, pending: Status, pendingMsg: string, work: Outcome<Step>, late: Option<string>, now: int)
      returns (thrown: Option<string>)
      modifies this
      ensures var a := Attempted(old(State()), id, pending, pendingMsg, work, late, now);
        && State() == a.world
        && (a.Done? <==> thrown == None)
        && (a.Threw? ==> thrown == Some(a.message))
    {
      var error := UpdateDocumentProgress(id, pending, pendingMsg, NoPatch, now);
      if error.Some? {
        return error;
      }
      if work.Err? {
        return Some(work.message);
      }
      error := UpdateDocumentProgress(id, work.value.status, work.value.msg, work.value.patch, now);
      if error.Some? {
        return error;
      }
      return late;
    }

    /** `processExtraction` and the rest of the chain. */
    method ProcessExtraction(id: DocId, env: Env)
      modifies this
      ensures State() == ExtractionStage(old(State()), id, env)
    {
      if id !in docs {
        return;
      }
      ghost var w := State();
      var thrown := Attempt(id, ExtractionPending, "Starting text extraction...", ExtractionWork(docs[id], env), None, env.now);
      ghost var w1 := State();
      if thrown == None {
        assert TryExtraction(w, id, env) == Done(w1);
        ExtractionContinues(w, id, env, w1);
        CallsClassification(w1, id, env);
        ProcessClassification(id, env);
      } else {
        assert TryExtraction(w, id, env) == Threw(w1, thrown.value);
        ExtractionThrows(w, id, env, w1, thrown.value);
        Fail(id, "Extraction Error: " + thrown.value, env.now);
      }
    }

    /** `processClassification` and the rest of the chain. */
    method ProcessClassification(id: DocId, env: Env)
      modifies this
      ensures State() == ClassificationStage(old(State()), id, env)
    {
      if id !in docs || docs[id].extractedText == "" {
        return;
      }
      ghost var w := State();
      var thrown := Attempt(id, ClassificationPending, "Classifying document...", ClassificationWork(docs[id], env), None, env.now);
      ghost var w1 := State();
      if thrown == None {
        assert TryClassification(w, id, env) == Done(w1);
        ClassificationContinues(w, id, env, w1);
        CallsDataExtraction(w1, id, env);
        ProcessDataExtraction(id, env);
      } else {
        assert TryClassification(w, id, env) == Threw(w1, thrown.value);
        ClassificationThrows(w, id, env, w1, thrown.value);
        Fail(id, "Classification Error: " + thrown.value, env.now);
      }
    }

    /** `processDataExtraction` and the rest of the chain. */
    method ProcessDataExtraction(id: DocId, env: Env)
      modifies this
      ensures State() == DataExtractionStage(old(State()), id, env)
    {
      if id !in docs {
        return;
      }
      ghost var w := State();
      var thrown := Attempt(id, DataExtractionPending, "Extracting structured data...", DataExtractionWork(docs[id], env), None, env.now);
      ghost var w1 := State();
      if thrown == None {
        assert TryDataExtraction(w, id, env) == Done(w1);
        DataExtractionContinues(w, id, env, w1);
        CallsSentimentAnalysis(w1, id, env);
        ProcessSentimentAnalysis(id, env);
      } else {
        assert TryDataExtraction(w, id, env) == Threw(w1, thrown.value);
        DataExtractionThrows(w, id, env, w1, thrown.value);
        Fail(id, "Data Extraction Error: " + thrown.value, env.now);
      }
    }

    /** `processSentimentAnalysis` and the rest of the chain. */
    method ProcessSentimentAnalysis(id: DocId, env: Env)
      modifies this
      ensures State() == SentimentStage(old(State()), id, env)
    {
      if id !in docs || docs[id].extractedText == "" {
        return;
      }
      ghost var w := State();
      var thrown := Attempt(id, SentimentPending, "Analyzing sentiment...", SentimentWork(docs[id], env), None, env.now);
      ghost var w1 := State();
      if thrown == None {
        assert TrySentiment(w, id, env) == Done(w1);
        SentimentContinues(w, id, env, w1);
        CallsFileRenaming(w1, id, env);
        ProcessFileRenaming(id, env);
      } else {
        assert TrySentiment(w, id, env) == Threw(w1, thrown.value);
        SentimentThrows(w, id, env, w1, thrown.value);
        Fail(id, "Sentiment Analysis Error: " + thrown.value, env.now);
      }
    }

    /** `processFileRenaming`: a failure is logged under `Renamed` and routing
        still runs, unless that log entry cannot be saved. */
    method ProcessFileRenaming(id: DocId, env: Env)
      modifies this
      ensures State() == RenamingStage(old(State()), id, env)
    {
      if id !in docs {
        return;
      }
      ghost var w := State();
      var thrown := Attempt(id, RenamingPending, "Generating new filename...", RenamingWork(docs[id]), None, env.now);
      ghost var w1 := State();
      if thrown == None {
        assert TryRenaming(w, id, env) == Done(w1);
        RenamingContinues(w, id, env, w1);
      } else {
        assert TryRenaming(w, id, env) == Threw(w1, thrown.value);
        var error := UpdateDocumentProgress(id, Renamed, "File renaming failed: " + thrown.value, NoPatch, env.now);
        if error != None {
          RenamingStops(w, id, env, w1, thrown.value);
          return;
        }
        RenamingRecovers(w, id, env, w1, thrown.value, State());
      }
      CallsRouting(State(), id, env);
      ProcessRouting(id, env);
    }

    /** `processRouting`, whose notification reads the owner after `Routed` is saved. */
    method ProcessRouting(id: DocId, env: Env)
      modifies this
      ensures State() == RoutingStage(old(State()), id, env)
    {
      if id !in docs {
        return;
      }
      ghost var w := State();
      var late := NotificationFailure(State(), docs[id]);
      var thrown := Attempt(id, RoutingPending, "Applying routing rules...", RoutingWork(docs[id]), late, env.now);
      ghost var w1 := State();
      if thrown == None {
        assert TryRouting(w, id, env) == Done(w1);
        RoutingCompletes(w, id, env, w1);
      } else {
        assert TryRouting(w, id, env) == Threw(w1, thrown.value);
        RoutingThrows(w, id, env, w1, thrown.value);
        Fail(id, "Routing Error: " + thrown.value, env.now);
      }
    }

    /** `uploadDocument`: the record is created and announced before the reply,
        and the chain runs on it afterwards. */
    method UploadDocument(file: Option<UploadedFile>, user: UserId, username: string, newId: DocId, env: Env)
      returns (resp: Response)
      modifies this
      ensures (State(), resp) == Pipeline.UploadDocument(old(State()), file, user, username, newId, env)
    {
      if file.None? {
        return MessageBody(400, "No file uploaded.");
      }
      var created := NewDocument(newId, file.value, user, ["Document received from user " + username + "."], env.now);
      if newId in docs {
        return MessageBody(500, "Server error during document creation.");
      }
      var saved := Save(created, env.now);
      if saved.Err? {
        return MessageBody(500, "Server error during document creation.");
      }
      docs := docs[newId := saved.value];
      events := events + [DocumentUpdated(saved.value)];
      resp := DocBody(201, saved.value);
      ProcessExtraction(newId, env);
    }

    /** `deleteDocument`. */
    method DeleteDocument(id: DocId, user: UserId) returns (resp: Response)
      modifies this
      ensures (State(), resp) == Pipeline.DeleteDocument(old(State()), id, user)
    {
      var access := CheckDocAccess(docs, users, id, user);
      if access.Denied? {
        return MessageBody(access.code, access.message);
      }
      docs := docs - {id};
      events := events + [DocumentDeleted(id)];
      return MessageBody(200, "Document deleted");
    }

    /** `reExtractDocument`: the reply, then the chain from extraction. */
    method ReExtractDocument(id: DocId, user: UserId, env: Env) returns (resp: Response)
      modifies this
      ensures (State(), resp) == Pipeline.ReExtractDocument(old(State()), id, user, env)
    {
      var access := CheckDocAccess(docs, users, id, user);
      if access.Denied? {
        return MessageBody(access.code, access.message);
      }
      resp := MessageBody(200, "Re-extraction started.");
      ProcessExtraction(id, env);
    }

    /** `reClassifyDocument`: the reply, then the chain from classification. */
    method ReClassifyDocument(id: DocId, user: UserId, env: Env) returns (resp: Response)
      modifies this
      ensures (State(), resp) == Pipeline.ReClassifyDocument(old(State()), id, user, env)
    {
      var access := CheckDocAccess(docs, users, id, user);
      if access.Denied? {
        return MessageBody(access.code, access.message);
      }
      resp := MessageBody(200, "Re-classification started.");
      ProcessClassification(id, env);
    }

    /** The comparison loop: the entries for the targets, in order. */
    static method ScoreTargets(sourceText: string, sourceId: DocId, targets: seq<Document>, model: Model)
      returns (results: seq<SimilarityResult>)
      ensures results == SimilarityResults(sourceText, sourceId, targets, model)
    {
      results := [];
      var i := 0;
      while i < |targets|
        invariant 0 <= i <= |targets|
        invariant results == SimilarityResults(sourceText, sourceId, targets[..i], model)
      {
        var t := targets[i];
        assert targets[..i + 1][..i] == targets[..i];
        if t.id != sourceId && t.extractedText != "" {
          var score := CompareTexts(sourceText, t.extractedText, model);
          results := results + [SimilarityResult(t.id, t.originalName, score)];
        }
        i := i + 1;
      }
      assert targets[..i] == targets;
    }

    /** `compareDocuments`. */
    method CompareDocuments(sourceId: DocId, user: UserId, ids: seq<DocId>, env: Env) returns (resp: Response)
      modifies this
      ensures (State(), resp) == Pipeline.CompareDocuments(old(State()), sourceId, user, ids, env)
    {
      var access := CheckDocAccess(docs, users, sourceId, user);
      if access.Denied? {
        return MessageBody(500, "Comparison error.");
      }
      var src := access.doc;
      if src.extractedText == "" {
        return MessageBody(400, "No text in source document.");
      }
      var targets := FindTargets(docs, ids, user);
      var error := UpdateDocumentProgress(sourceId, src.status, ComparingMessage(|targets|), NoPatch, env.now);
      if error != None {
        return MessageBody(500, "Comparison error.");
      }
      var results := ScoreTargets(src.extractedText, sourceId, targets, env.model);
      error := UpdateDocumentProgress(sourceId, src.status, "Comparison complete.", ResultsPatch(results), env.now);
      if error != None {
        return MessageBody(500, "Comparison error.");
      }
      return DocBody(200, docs[sourceId]);
    }

    /** `clearComparisonResults`. */
    method ClearComparisonResults(id: DocId, user: UserId, now: int) returns (resp: Response)
      modifies this
      ensures (State(), resp) == Pipeline.ClearComparisonResults(old(State()), id, user, now)
    {
      var access := CheckDocAccess(docs, users, id, user);
      if access.Denied? {
        return MessageBody(access.code, access.message);
      }
      var d := access.doc;
      d := d.(similarityResults := []);
      var saved := Save(d, now);
      if saved.Err? {
        return MessageBody(500, saved.message);
      }
      docs := docs[id := saved.value];
      events := events + [DocumentUpdated(saved.value)];
      return DocBody(200, saved.value);
    }
  }
}
