/**
 * What the request handlers guarantee: an upload stores a new record with the
 * schema's defaults and runs the whole chain on it; a comparison replaces the
 * source's results with the scores of the eligible targets, in target order,
 * and writes back the status it read; clearing empties the results; deleting
 * removes exactly the record; and a request the access check refuses leaves
 * the store as it was.
 */
module HandlerProperties {
  import opened Wrappers
  import opened DocumentModel
  import opened AiService
  import opened ControllerPolicy
  import opened Pipeline
  import opened PipelineProperties

  // ---------------------------------------------------------------------
  // Upload
  // ---------------------------------------------------------------------

  function UploadMessage(username: string): string {
    "Document received from user " + username + "."
  }

  /** An upload without a file, under a taken id, or of a record that fails
      validation stores nothing and announces nothing. */
  lemma UploadRejections(w: World, file: Option<UploadedFile>, user: UserId, username: string, newId: DocId, env: Env)
    ensures file.None? ==> UploadDocument(w, file, user, username, newId, env) == (w, MessageBody(400, "No file uploaded."))
    ensures file.Some? && (newId in w.docs || !RequiredPresent(NewDocument(newId, file.value, user, [UploadMessage(username)], env.now)))
      ==> UploadDocument(w, file, user, username, newId, env) == (w, MessageBody(500, "Server error during document creation."))
  {
  }

  /** The store once a new record `d` is saved and announced. */
  function Created(w: World, d: Document): World {
    World(w.docs[d.id := d], w.events + [DocumentUpdated(d)], w.users)
  }

  /** A valid upload saves the new record as created and runs the chain on it. */
  lemma UploadStores(w: World, f: UploadedFile, user: UserId, username: string, newId: DocId, env: Env)
    requires newId !in w.docs
    requires RequiredPresent(NewDocument(newId, f, user, [UploadMessage(username)], env.now))
    ensures var created := NewDocument(newId, f, user, [UploadMessage(username)], env.now);
      UploadDocument(w, Some(f), user, username, newId, env) == (ExtractionStage(Created(w, created), newId, env), DocBody(201, created))
  {
    var created := NewDocument(newId, f, user, [UploadMessage(username)], env.now);
    assert created.(updatedAt := env.now) == created;
  }

  /** Saving a new record keeps the store valid and announces `Ingested`. */
  lemma CreationStep(w: World, d: Document)
    requires ValidWorld(w) && d.id !in w.docs && RequiredPresent(d) && d.status == Ingested
    ensures ValidWorld(Created(w, d)) && Wrote(w, Created(w, d), [Ingested])
  {
    var w1 := Created(w, d);
    assert w1.events[..|w1.events| - 1] == w.events;
  }

  /** `Ingested` announced before the whole chain makes a forward run from
      the start of the order. */
  lemma IngestedBeforeChain(w: World, w1: World, w2: World, id: DocId)
    requires Wrote(w, w1, [Ingested]) && StageShape(w1, w2, id, 1)
    ensures Written(w, w2) == [Ingested] + Written(w1, w2) && ForwardRun(Written(w, w2), 0)
  {
    var rest := Written(w1, w2);
    assert Wrote(w, w2, [Ingested] + rest) by {
      assert Statuses(w2.events) == Statuses(w1.events) + rest;
      assert Statuses(w1.events) == Statuses(w.events) + [Ingested];
      assert Statuses(w.events) + [Ingested] + rest == Statuses(w.events) + ([Ingested] + rest);
    }
    WrittenOf(w, w2, [Ingested] + rest);
    assert ForwardRun([Ingested] + rest, 0) by {
      assert ForwardRun(rest, 1);
      assert ForwardOrder[0] == Ingested;
      ForwardRunCons(Ingested, rest, 0);
    }
  }

  /** The chain on a freshly created record announces `Ingested` and then a
      forward run, leaves every other record alone and keeps the store valid. */
  lemma ChainAfterCreation(w: World, d: Document, env: Env)
    requires ValidWorld(w) && d.id !in w.docs && RequiredPresent(d) && d.status == Ingested
    ensures var w2 := ExtractionStage(Created(w, d), d.id, env);
      && ValidWorld(w2) && d.id in w2.docs && w2.users == w.users
      && (forall k :: k in w.docs ==> k in w2.docs && w2.docs[k] == w.docs[k])
      && Written(w, w2) != [] && Written(w, w2)[0] == Ingested && ForwardRun(Written(w, w2), 0)
  {
    var w1 := Created(w, d);
    CreationStep(w, d);
    var w2 := ExtractionStage(w1, d.id, env);
    ExtractionRunsForward(w1, d.id, env);
    IngestedBeforeChain(w, w1, w2, d.id);
  }

  /** A valid upload replies 201 with the new record as created (status
      `Ingested`, the defaults, one log entry naming the uploader); the chain
      then runs on it: the statuses announced start with `Ingested` and follow
      the forward order, no other record changes, and the store stays valid. */
  lemma UploadRunsTheChain(w: World, f: UploadedFile, user: UserId, username: string, newId: DocId, env: Env)
    requires ValidWorld(w) && newId !in w.docs
    requires RequiredPresent(NewDocument(newId, f, user, [UploadMessage(username)], env.now))
    ensures var (w2, resp) := UploadDocument(w, Some(f), user, username, newId, env);
      var created := NewDocument(newId, f, user, [UploadMessage(username)], env.now);
      && resp == DocBody(201, created)
      && created.status == Ingested && created.logs == [LogEntry(env.now, UploadMessage(username))]
      && ValidWorld(w2) && newId in w2.docs && w2.users == w.users
      && (forall k :: k in w.docs ==> k in w2.docs && w2.docs[k] == w.docs[k])
      && Written(w, w2) != [] && Written(w, w2)[0] == Ingested && ForwardRun(Written(w, w2), 0)
  {
    var created := NewDocument(newId, f, user, [UploadMessage(username)], env.now);
    UploadStores(w, f, user, username, newId, env);
    ChainAfterCreation(w, created, env);
  }

  // ---------------------------------------------------------------------
  // Comparison
  // ---------------------------------------------------------------------

  /** The targets the loop scores: every one that is not the source and has
      text, in target order. */
  function Eligible(sourceId: DocId, targets: seq<Document>): seq<Document>
    decreases |targets|
  {
    if targets == [] then []
    else
      var t := targets[|targets| - 1];
      Eligible(sourceId, targets[..|targets| - 1]) + (if t.id != sourceId && t.extractedText != "" then [t] else [])
  }

  /** A target is scored exactly when it is not the source and has text. */
  lemma {:induction false} EligibleMembers(sourceId: DocId, targets: seq<Document>)
    ensures forall t :: t in Eligible(sourceId, targets) <==> t in targets && t.id != sourceId && t.extractedText != ""
    decreases |targets|
  {
    if targets != [] {
      var front := targets[..|targets| - 1];
      EligibleMembers(sourceId, front);
      assert targets == front + [targets[|targets| - 1]];
    }
  }

  /** The targets looked up are exactly the caller's records among the
      requested ids. */
  lemma {:induction false} FindTargetsMembers(docs: map<DocId, Document>, ids: seq<DocId>, user: UserId)
    ensures forall x :: x in ids && x in docs && docs[x].owner == user ==> docs[x] in FindTargets(docs, ids, user)
    decreases |ids|
  {
    if ids != [] {
      var front := ids[..|ids| - 1];
      FindTargetsMembers(docs, front, user);
      assert ids == front + [ids[|ids| - 1]];
    }
  }

  /** The entry recorded for a scored target. */
  function Scored(sourceText: string, t: Document, model: Model): SimilarityResult {
    SimilarityResult(t.id, t.originalName, CompareTexts(sourceText, t.extractedText, model))
  }

  /** The loop's results are the eligible targets, scored, one for one and in order. */
  lemma {:induction false} SimilarityResultsScoreEligible(sourceText: string, sourceId: DocId, targets: seq<Document>, model: Model)
    ensures var r := SimilarityResults(sourceText, sourceId, targets, model);
      var e := Eligible(sourceId, targets);
      |r| == |e| && forall k :: 0 <= k < |r| ==> r[k] == Scored(sourceText, e[k], model)
    decreases |targets|
  {
    if targets != [] {
      SimilarityResultsScoreEligible(sourceText, sourceId, targets[..|targets| - 1], model);
    }
  }

  /** A comparison the access check refuses, or of a source without text,
      stores nothing. */
  lemma CompareRejections(w: World, sourceId: DocId, user: UserId, ids: seq<DocId>, env: Env)
    ensures CheckDocAccess(w.docs, w.users, sourceId, user).Denied? ==>
      CompareDocuments(w, sourceId, user, ids, env) == (w, MessageBody(500, "Comparison error."))
    ensures CheckDocAccess(w.docs, w.users, sourceId, user).Granted? && w.docs[sourceId].extractedText == "" ==>
      CompareDocuments(w, sourceId, user, ids, env) == (w, MessageBody(400, "No text in source document."))
  {
  }

  /** The record after the first update of a comparison: the status read at
      the start, and the "Comparing with" entry. */
  lemma CompareFirstUpdate(w: World, sourceId: DocId, msg: string, now: int)
    requires ValidWorld(w) && sourceId in w.docs && msg != ""
    ensures var src := w.docs[sourceId];
      var r := Progress(w, sourceId, src.status, msg, NoPatch, now);
      && r.Ok? && ValidWorld(r.value) && Frame(w, r.value, sourceId) && Wrote(w, r.value, [src.status])
      && r.value.docs[sourceId] == src.(logs := src.logs + [LogEntry(now, msg)], updatedAt := now)
  {
    var src := w.docs[sourceId];
    var stamped := Stamp(src, src.status, msg, now);
    AssignNothing(stamped);
    assert stamped == src.(logs := src.logs + [LogEntry(now, msg)]);
    ProgressStep(w, sourceId, src.status, msg, NoPatch, now);
  }

  /** The record after the second update: the same status, the "Comparison
      complete." entry, and the new results in place of the old ones. */
  lemma CompareSecondUpdate(w: World, sourceId: DocId, results: seq<SimilarityResult>, now: int)
    requires ValidWorld(w) && sourceId in w.docs
    ensures var src := w.docs[sourceId];
      var r := Progress(w, sourceId, src.status, "Comparison complete.", ResultsPatch(results), now);
      && r.Ok? && ValidWorld(r.value) && Frame(w, r.value, sourceId) && Wrote(w, r.value, [src.status])
      && r.value.docs[sourceId]
         == src.(logs := src.logs + [LogEntry(now, "Comparison complete.")], similarityResults := results, updatedAt := now)
  {
    var src := w.docs[sourceId];
    var stamped := Stamp(src, src.status, "Comparison complete.", now);
    assert stamped == src.(logs := src.logs + [LogEntry(now, "Comparison complete.")]);
    var p := ResultsPatch(results);
    assert Assign(stamped, p).value
      == Overwrite(stamped, p, stamped.classification, stamped.confidenceScore, stamped.sentiment);
    ProgressKeepingNames(w, sourceId, src.status, "Comparison complete.", p, now);
    ProgressStep(w, sourceId, src.status, "Comparison complete.", p, now);
  }

  /** A comparison the owner asks for, of a source with text: the reply is the
      stored source, whose results are replaced (not extended) by the loop's,
      whose status is the one read at the start, and which gains the two log
      entries; no other record changes and the store stays valid. */
  lemma CompareReplacesResults(w: World, sourceId: DocId, user: UserId, ids: seq<DocId>, env: Env)
    requires ValidWorld(w)
    requires CheckDocAccess(w.docs, w.users, sourceId, user).Granted?
    requires w.docs[sourceId].extractedText != ""
    ensures var src := w.docs[sourceId];
      var targets := FindTargets(w.docs, ids, user);
      var results := SimilarityResults(src.extractedText, sourceId, targets, env.model);
      var d := src.(logs := src.logs + [LogEntry(env.now, ComparingMessage(|targets|)), LogEntry(env.now, "Comparison complete.")],
                    similarityResults := results, updatedAt := env.now);
      var (w2, resp) := CompareDocuments(w, sourceId, user, ids, env);
      && resp == DocBody(200, d)
      && w2.docs == w.docs[sourceId := d] && w2.users == w.users
      && Written(w, w2) == [src.status, src.status]
      && ValidWorld(w2)
  {
    var src := w.docs[sourceId];
    var targets := FindTargets(w.docs, ids, user);
    var msg := ComparingMessage(|targets|);
    var results := SimilarityResults(src.extractedText, sourceId, targets, env.model);
    CompareFirstUpdate(w, sourceId, msg, env.now);
    var w1 := Progress(w, sourceId, src.status, msg, NoPatch, env.now).value;
    CompareSecondUpdate(w1, sourceId, results, env.now);
    var w2 := Progress(w1, sourceId, src.status, "Comparison complete.", ResultsPatch(results), env.now).value;
    assert CompareDocuments(w, sourceId, user, ids, env) == (w2, DocBody(200, w2.docs[sourceId]));
    assert src.logs + [LogEntry(env.now, msg)] + [LogEntry(env.now, "Comparison complete.")]
      == src.logs + [LogEntry(env.now, msg), LogEntry(env.now, "Comparison complete.")];
    FrameTrans(w, w1, w2, sourceId, [src.status], [src.status]);
    assert [src.status] + [src.status] == [src.status, src.status];
    WrittenOf(w, w2, [src.status, src.status]);
  }

  // ---------------------------------------------------------------------
  // Clearing, deleting, restarting
  // ---------------------------------------------------------------------

  /** Clearing empties the results and saves the record as it was otherwise:
      no log entry, no status change, one announcement. */
  lemma ClearEmptiesResults(w: World, id: DocId, user: UserId, now: int)
    requires ValidWorld(w) && CheckDocAccess(w.docs, w.users, id, user).Granted?
    ensures var d := w.docs[id].(similarityResults := [], updatedAt := now);
      && ClearComparisonResults(w, id, user, now) == (World(w.docs[id := d], w.events + [DocumentUpdated(d)], w.users), DocBody(200, d))
      && ValidWorld(World(w.docs[id := d], w.events + [DocumentUpdated(d)], w.users))
  {
  }

  /** Deleting removes exactly the record and announces its id; the deletion
      carries no status. */
  lemma DeleteRemovesTheRecord(w: World, id: DocId, user: UserId)
    requires ValidWorld(w) && CheckDocAccess(w.docs, w.users, id, user).Granted?
    ensures var (w2, resp) := DeleteDocument(w, id, user);
      && id !in w2.docs && (forall k :: k in w2.docs <==> k in w.docs && k != id)
      && (forall k :: k in w2.docs ==> w2.docs[k] == w.docs[k])
      && w2.events == w.events + [DocumentDeleted(id)] && Written(w, w2) == []
      && ValidWorld(w2) && resp == MessageBody(200, "Document deleted")
  {
    var w2 := DeleteDocument(w, id, user).0;
    assert w2.events[..|w2.events| - 1] == w.events;
    WrittenOf(w, w2, []);
  }

  /** A re-extraction restarts the whole chain on the record, a
      re-classification the chain from classification on; either writes a
      forward run from its stage's pending status and nothing else. */
  lemma RestartsRunForward(w: World, id: DocId, user: UserId, env: Env)
    requires ValidWorld(w) && CheckDocAccess(w.docs, w.users, id, user).Granted?
    ensures var w2 := ReExtractDocument(w, id, user, env).0;
      Frame(w, w2, id) && ValidWorld(w2) && ForwardRun(Written(w, w2), 1)
    ensures var w2 := ReClassifyDocument(w, id, user, env).0;
      Frame(w, w2, id) && ValidWorld(w2) && ForwardRun(Written(w, w2), 3)
  {
    ExtractionRunsForward(w, id, env);
    ClassificationRunsForward(w, id, env);
  }

  /** Every handler the access check refuses replies with its code and message
      and changes nothing. */
  lemma RefusedRequestsChangeNothing(w: World, id: DocId, user: UserId, env: Env)
    requires CheckDocAccess(w.docs, w.users, id, user).Denied?
    ensures var a := CheckDocAccess(w.docs, w.users, id, user);
      && DeleteDocument(w, id, user) == (w, MessageBody(a.code, a.message))
      && ReExtractDocument(w, id, user, env) == (w, MessageBody(a.code, a.message))
      && ReClassifyDocument(w, id, user, env) == (w, MessageBody(a.code, a.message))
      && ClearComparisonResults(w, id, user, env.now) == (w, MessageBody(a.code, a.message))
      && SummarizeDocument(w, id, user, env) == MessageBody(a.code, a.message)
  {
  }

  // ---------------------------------------------------------------------
  // Summary and questions
  // ---------------------------------------------------------------------

  /** A summary of a record with text is the model's reply, or the fixed
      apology when the model fails; a record without text is a 400. */
  lemma SummaryReplies(w: World, id: DocId, user: UserId, env: Env)
    requires CheckDocAccess(w.docs, w.users, id, user).Granted?
    ensures var d := w.docs[id];
      && (d.extractedText == "" ==> SummarizeDocument(w, id, user, env) == MessageBody(400, "No text to summarize."))
      && (d.extractedText != "" && env.model(SummaryPromptFor(d.extractedText)).Ok? ==>
            SummarizeDocument(w, id, user, env) == SummaryBody(env.model(SummaryPromptFor(d.extractedText)).value))
      && (d.extractedText != "" && env.model(SummaryPromptFor(d.extractedText)).Err? ==>
            SummarizeDocument(w, id, user, env) == SummaryBody(SummaryFailure))
  {
  }

  /** An empty question is refused before the record is looked at; otherwise
      the access check decides, then the text, then the model. */
  lemma QuestionReplies(w: World, id: DocId, user: UserId, question: string, env: Env)
    ensures AskQuestion(w, id, user, "", env) == MessageBody(400, "A question is required.")
    ensures question != "" && CheckDocAccess(w.docs, w.users, id, user).Denied? ==>
      var a := CheckDocAccess(w.docs, w.users, id, user);
      AskQuestion(w, id, user, question, env) == MessageBody(a.code, a.message)
    ensures question != "" && CheckDocAccess(w.docs, w.users, id, user).Granted? ==>
      var d := w.docs[id];
      && (d.extractedText == "" ==> AskQuestion(w, id, user, question, env) == MessageBody(400, "No extracted text for Q&A."))
      && (d.extractedText != "" && env.model(QuestionPromptFor(d.extractedText, question)).Ok? ==>
            AskQuestion(w, id, user, question, env) == AnswerBody(env.model(QuestionPromptFor(d.extractedText, question)).value))
      && (d.extractedText != "" && env.model(QuestionPromptFor(d.extractedText, question)).Err? ==>
            AskQuestion(w, id, user, question, env) == AnswerBody(AnswerFailure))
  {
  }
}
