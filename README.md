# The document pipeline, modelled in Dafny

DOC_AI keeps uploaded documents as records in a store and runs each record
through a fixed chain of stages. The stages are extraction, classification,
data extraction, sentiment analysis, renaming and routing. Each stage writes a
`*_Pending` status, does its work and writes its done status, then calls the
next stage. Every write goes through `updateDocumentProgress`. That helper sets
the status, appends a log entry, merges the result fields, saves the record
(which refreshes `updatedAt`) and emits one `document_updated` event. An error
in a stage's `try` block makes the record `Failed`, with a log entry that names
the stage. A renaming error is the exception: it is logged and routing still
runs.

The project models:

- the record schema: enums, defaults, the required fields, Mongoose's casts
  and the pre-save hook (`document_model.dfy`);
- the normalisation the AI service applies around each model call:
  truncation, fence stripping, JSON parsing, fallbacks and sentiment coercion
  (`ai_service.dfy`);
- the controller's pure policy: the access check, pagination arithmetic,
  extractor choice, `sanitizeFilename`, the rename template and the routing
  table (`controller_policy.dfy`);
- the store, the progress helper, the six stages and the request handlers as
  functions over a `World`, which holds the records, the events emitted so far
  and the users that exist (`pipeline.dfy`);
- the same operations as an imperative store class whose methods update
  fields in place, each proved equal to those functions (`document_store.dfy`);
- what the chain and the handlers guarantee, as lemmas
  (`pipeline_properties.dfy`, `handler_properties.dfy`);
- three pieces of client state: the document-list provider
  (`document_context.dfy`), the comparison dialog's selection
  (`compare_modal.dfy`) and the list page's sort and pagination controls
  (`documents_page.dfy`);
- the JavaScript built-ins these depend on: `trim`, `substring`, `parseInt`,
  `String(x)`, property reads on JSON values and `path.extname`
  (`js_runtime.dfy`). `wrappers.dfy` holds `Option` and `Outcome`.

Everything outside the process is a parameter of the model, collected in an
`Env`:

- `extract`: the text extractor, chosen by media type;
- `model`: the Gemini model, a function from a prompt to a reply or an error;
- `parse`: `JSON.parse`, a function from a string to a JSON value or a syntax
  error;
- `duration`: the formatted extraction time;
- `now`: the wall clock.

Fire-and-forget chaining is modelled sequentially: each stage function ends by
calling the next one.

A record's status history is read off the event list. `ForwardRun(ss, i)` says
that the statuses `ss` follow the forward order from position `i` and stop
there or at one `Failed`. The forward order is Ingested, Extraction_Pending,
Extracted, …, Routing_Pending, Routed.

A run need not end at `Routed` or `Failed`. Classification, and likewise
sentiment analysis, returns without writing anything when the record has no
extracted text. So an extraction that yields empty text leaves the record at
`Extracted` (`EmptyExtractionStalls`). A record without text that reaches data
extraction stops at `Data_Extracted` (`DataExtractionIgnoresEmptyText`).

## Model

| member | source | states |
|---|---|---|
| DocumentModel.ParseStatus | backend/models/Document.js:16-35 | a status name is accepted exactly when it is one of the 14 enum values, and the status it maps to has that name |
| DocumentModel.StatusNameRoundTrip | backend/models/Document.js:16-35 | every status has an enum name, and that name parses back to the same status |
| DocumentModel.ParseSentiment | backend/models/Document.js:44-48 | a sentiment is accepted exactly when it is Positive, Negative, Neutral or N/A |
| DocumentModel.SentimentNameRoundTrip | backend/models/Document.js:44-48 | every sentiment value has an enum name that parses back to it |
| DocumentModel.NewDocument | backend/models/Document.js:4-74 | a created record has the file's fields, the owner and status Ingested; its defaults are empty text, `{}` data, N/A sentiment, Unclassified with score 0 and route None; each log entry is stamped now; there are no similarity results; createdAt and updatedAt are now |
| DocumentModel.CastString | backend/models/Document.js:36-60 | a string casts to itself; an object casts to its non-empty string `_id` or is rejected; arrays and null are rejected; any other value casts to its JavaScript string form |
| DocumentModel.StringToInteger | backend/models/Document.js:53-56 | `Number(s)` on the strings modelled: white space only is 0, an optionally signed run of decimal digits is its value, anything else is not a number; `StringToIntegerOfDecimal` states its round trip |
| DocumentModel.StringToIntegerOfDecimal | backend/models/Document.js:53-56 | a string that trims to a printed integer converts to that integer |
| DocumentModel.CastNumber | backend/models/Document.js:53-56 | a number casts to itself; `true` and `false` cast to 1 and 0; arrays, objects and null are rejected |
| DocumentModel.CastNumberOfDecimalString | backend/models/Document.js:53-56 | a string holding a printed integer, with any white space around it, casts to that integer |
| DocumentModel.Assign | backend/controllers/documentController.js:39 | `Object.assign` followed by the schema's casts succeeds exactly when every supplied field casts; the fields it does not supply are left as they were |
| DocumentModel.AssignMerges | backend/controllers/documentController.js:39 | a successful assign holds each supplied field's cast value and leaves every other field as it was |
| DocumentModel.AssignNothing | backend/controllers/documentController.js:39 | assigning no fields always succeeds and changes nothing |
| DocumentModel.Save | backend/models/Document.js:77-80 | a save succeeds exactly when the required fields are present, and the saved record differs only in `updatedAt`, which becomes now |
| AiService.RemoveFences | backend/services/aiService.js:20 | removing fences never lengthens a reply, and a reply without backticks is left as it is |
| AiService.RemoveFencesKeepsPlainText | backend/services/aiService.js:20 | text before the first backtick passes through unchanged |
| AiService.FencedReplyIsUnwrapped | backend/services/aiService.js:20 | a reply wrapped in a ```` ```json ```` … ```` ``` ```` fence is cleaned to its trimmed body |
| AiService.ClassifyPromptFor | backend/services/aiService.js:15 | the classification prompt carries exactly the first 4000 characters of the text |
| AiService.CleanJsonReply | backend/services/aiService.js:20 | the cleaned reply is no longer than the reply and has no white space at either end; `FencedReplyIsUnwrapped` states what a fenced reply cleans to |
| AiService.ClassifyText | backend/services/aiService.js:17-25 | when the call succeeds and the cleaned reply parses, the result is exactly the parsed value; when the call throws or the reply does not parse it is `{type: 'Classification Failed', score: 0}` |
| AiService.StructuredPromptFor | backend/services/aiService.js:40-55 | only Invoice and Contract have a field prompt, each its own, and it carries the first 4000 characters |
| AiService.ExtractStructuredData | backend/services/aiService.js:31-66 | a label without a schema gives `{}`; otherwise the result is the parsed reply, or `{error: …}` when the call throws or the reply does not parse |
| AiService.NoSchemaNoCall | backend/services/aiService.js:40-55 | for labels other than Invoice and Contract the result is `{}` whatever the model and the parser would do |
| AiService.SummaryPromptFor | backend/services/aiService.js:76 | the summary prompt carries the first 8000 characters |
| AiService.SummarizeText | backend/services/aiService.js:71-86 | the summary is the model's reply, or the fixed apology when the call throws |
| AiService.QuestionPromptFor | backend/services/aiService.js:118 | the question prompt carries the question and the first 12000 characters |
| AiService.AnswerQuestion | backend/services/aiService.js:110-130 | the answer is the model's reply, or the fixed apology when the call throws |
| AiService.ComparePromptFor | backend/services/aiService.js:94-95 | the comparison prompt carries the first 2000 characters of each text |
| AiService.CompareTexts | backend/services/aiService.js:96-104 | when the call succeeds and `parseInt` of the trimmed reply in base 10 is a number, the score is exactly that number; it is 0 when the call throws or the trimmed reply has no leading integer |
| AiService.CompareScoreIsParsedInteger | backend/services/aiService.js:99-100 | a reply that is white space, then a printed integer, then anything not starting with a digit (`"85\n"`, `"85%"`) scores exactly that integer; there is no clamping to 0-100 |
| AiService.SentimentPromptFor | backend/services/aiService.js:142 | the sentiment prompt carries the first 4000 characters |
| AiService.AnalyzeSentiment | backend/services/aiService.js:144-155 | the result is always Positive, Negative, Neutral or N/A; it is N/A exactly when the call throws; a recognised trimmed reply is kept and any other reply becomes Neutral |
| AiService.OnlyThePrefixMatters | backend/services/aiService.js:10-156 | texts that agree on the first 4000 characters classify, extract and score sentiment alike; on 8000 they summarise alike; on 12000 they answer alike; on 2000 per side they compare alike |
| JsRuntime.Trim | backend/services/aiService.js:147 | the result is the stretch of the string after its leading white space and before its trailing white space: everything dropped is white space, and the result starts and ends with a character that is not |
| JsRuntime.TrimIdempotent | backend/services/aiService.js:147 | trimming twice is trimming once |
| JsRuntime.ParseInt | backend/services/aiService.js:99 | `parseInt` skips leading white space, takes a sign and, with automatic radix, a `0x` prefix, then the longest run of digits; no digit is `NaN`; its round trips are `ParseIntOfDecimal` and `ParseIntOfTrimmedDecimal` |
| JsRuntime.ParseIntOfDecimal | backend/services/aiService.js:99 | `parseInt(s, 10)` of an integer's decimal digits, followed by anything that is not a digit, is that integer |
| JsRuntime.ParseIntOfTrimmedDecimal | backend/services/aiService.js:99 | `parseInt(s.trim(), 10)` of white space, a printed integer and anything not starting with a digit is that integer |
| JsRuntime.ParseIntRadixOfNumeral | backend/controllers/documentController.js:214-215 | on a signed run of decimal digits, `parseInt(s)` and `parseInt(s, 10)` agree |
| JsRuntime.Prefix | backend/services/aiService.js:15 | `substring(0, n)` is a prefix of the string of length min(length, n) |
| JsRuntime.JsToString | backend/controllers/documentController.js:92 | `String(x)` of a string is the string and of an integer its decimal form |
| JsRuntime.GetProp | backend/controllers/documentController.js:89-90 | reading a property throws exactly on null, with the TypeError naming the property; on an object that has the key it yields the field's value; on an object without it, and on every other value, it is `undefined` |
| JsRuntime.Extname | backend/controllers/documentController.js:139 | an extension is empty or a dot followed by characters that are neither dots nor slashes |
| JsRuntime.ExtnameOfDotted | backend/controllers/documentController.js:139 | a path whose last segment is a non-empty stem, a dot and an extension without dots or slashes has exactly that dot and extension as its extension |
| ControllerPolicy.CheckDocAccess | backend/controllers/documentController.js:25-31 | access is granted exactly when the record exists, its owner exists and is the caller; 404 exactly when the record is missing, 403 exactly when another existing user owns it, 500 for a vanished owner |
| ControllerPolicy.IntParamOr | backend/controllers/documentController.js:214-215 | `parseInt(x) \|\| d` is never 0 when d is not 0; an absent parameter gives d, and a parameter that parses to a non-zero integer gives that integer |
| ControllerPolicy.CeilDiv | backend/controllers/documentController.js:244 | for a positive limit, Math.ceil(total / limit) is the least page count that covers every record; for a negative limit it is the ceiling of the negative quotient |
| ControllerPolicy.Window | backend/controllers/documentController.js:216-244 | skip is (page - 1) * limit and the page count covers the total |
| ControllerPolicy.Paginate | backend/controllers/documentController.js:214-244 | page defaults to 1 and limit to 10, neither is ever 0, skip is (page - 1) * limit, and a positive limit gives a covering page count |
| ControllerPolicy.EveryDocumentHasAPage | backend/controllers/documentController.js:214-248 | with the default page size, every record's position falls on a page no greater than the page count |
| ControllerPolicy.ExtractorFor | backend/controllers/documentController.js:60-72 | images go to OCR, `application/pdf` to the PDF parser, Word media types to the raw-text reader and everything else to a plain file read; exactly one is chosen |
| ControllerPolicy.RemoveReserved | backend/controllers/documentController.js:47 | the first replacement removes every character of `/\?%*:\|"<>` and keeps all the others |
| ControllerPolicy.RemoveReservedSplits | backend/controllers/documentController.js:47 | removing reserved characters works piece by piece over a concatenation |
| ControllerPolicy.CollapseWhitespaceLeavesNone | backend/controllers/documentController.js:47 | after `replace(/\s+/g, '_')` no white space is left |
| ControllerPolicy.CollapseWhitespaceAddsOnlyUnderscores | backend/controllers/documentController.js:47 | the only characters the second replacement introduces are underscores |
| ControllerPolicy.CollapseWhitespaceOfPlain | backend/controllers/documentController.js:47 | a name without white space is unchanged |
| ControllerPolicy.CollapseWhitespaceRun | backend/controllers/documentController.js:47 | a run of white space between plain text and a non-space becomes one underscore |
| ControllerPolicy.SanitizeFilename | backend/controllers/documentController.js:45-48 | a sanitised name contains no reserved character and no white space, and is no longer than the input |
| ControllerPolicy.SanitizeFilenameIdempotent | backend/controllers/documentController.js:45-48 | sanitising twice is sanitising once |
| ControllerPolicy.NameFromFields | backend/controllers/documentController.js:142-146 | the template throws exactly when the data is null; with both fields truthy it builds `<prefix>_<a>_<b><ext>`; otherwise it keeps the original name |
| ControllerPolicy.ProposedName | backend/controllers/documentController.js:137-146 | an Invoice with vendorName and invoiceDate, or a Contract with partyA and effectiveDate, gets the templated name; other labels keep the original name; it throws exactly for an Invoice or Contract whose data is null |
| ControllerPolicy.ProposedNameKeepsExtension | backend/controllers/documentController.js:139-146 | a templated name ends with the original name's extension |
| ControllerPolicy.RouteDestination | backend/controllers/documentController.js:172-175 | Invoice goes to Accounting, Contract to Legal, Resume to HR and every other label to the General Archive, each exactly so |
| Pipeline.Stamp | backend/controllers/documentController.js:37-38 | the status is set, and one log entry stamped now is appended exactly when the message is non-empty; earlier entries are untouched |
| Pipeline.Progress | backend/controllers/documentController.js:34-42 | a missing record means nothing is saved or emitted; otherwise the updated record alone changes, it is saved with the status, the log entry and updatedAt now, and one event carrying it is appended |
| Pipeline.ProgressOutcome | backend/controllers/documentController.js:39-40 | an update succeeds exactly when the fields cast and the required fields stay present; the stored record then holds the merged fields; a failed cast reports its message |
| Pipeline.ClassificationFields | backend/controllers/documentController.js:88-91 | a null result throws on `.type`; a falsy type becomes Unclassified and a falsy score becomes 0; truthy values are kept |
| Pipeline.ExtractionWork | backend/controllers/documentController.js:57-75 | extraction's work: the extractor's text, or its error; `ExtractorFailureFails` states the failing case |
| Pipeline.TryExtraction | backend/controllers/documentController.js:55-76 | extraction's `try` block; `AttemptedShape` states its shape |
| Pipeline.ExtractionStage | backend/controllers/documentController.js:52-80 | `processExtraction`; `ExtractionRunsForward` and `ExtractionErrorEndsChain` state its trace |
| Pipeline.ClassificationWork | backend/controllers/documentController.js:87-93 | classification's work: the fields read off the service's result; `ClassificationStores` states what is stored |
| Pipeline.TryClassification | backend/controllers/documentController.js:85-95 | classification's `try` block; `AttemptedShape` states its shape |
| Pipeline.ClassificationStage | backend/controllers/documentController.js:82-98 | `processClassification`; `ClassificationRunsForward`, `ClassificationStores` and `ClassificationErrorEndsChain` state its outcomes |
| Pipeline.DataExtractionWork | backend/controllers/documentController.js:105-107 | data extraction's work: the service's structured data |
| Pipeline.TryDataExtraction | backend/controllers/documentController.js:103-109 | data extraction's `try` block; `DataExtractionNeverFails` states that it completes |
| Pipeline.DataExtractionStage | backend/controllers/documentController.js:100-112 | `processDataExtraction`; `DataExtractionRunsForward` and `DataExtractionNeverFails` state its outcome |
| Pipeline.SentimentWork | backend/controllers/documentController.js:119-121 | sentiment analysis's work: the service's label |
| Pipeline.TrySentiment | backend/controllers/documentController.js:117-125 | sentiment analysis's `try` block; `SentimentNeverFails` states that it completes |
| Pipeline.SentimentStage | backend/controllers/documentController.js:114-128 | `processSentimentAnalysis`; `SentimentRunsForward` and `SentimentNeverFails` state its outcome |
| Pipeline.RenamingWork | backend/controllers/documentController.js:137-155 | renaming's work: the proposed name, sanitised; `RenamingStores` states what is stored |
| Pipeline.TryRenaming | backend/controllers/documentController.js:134-159 | renaming's `try` block; `AttemptedShape` states its shape |
| Pipeline.RenamingStage | backend/controllers/documentController.js:131-165 | `processFileRenaming`; `RenamingRunsForward`, `RenamingStores` and `RenamingErrorIsNotFatal` state its outcomes |
| Pipeline.RoutingWork | backend/controllers/documentController.js:172-177 | routing's work: the destination for the label |
| Pipeline.TryRouting | backend/controllers/documentController.js:170-184 | routing's `try` block, whose notification reads the owner's address after the save |
| Pipeline.RoutingStage | backend/controllers/documentController.js:167-187 | `processRouting`; `RoutingRunsForward`, `RoutingErrorEndsChain` and `MissingOwnerFailsAfterRouting` state its outcomes |
| Pipeline.UploadDocument | backend/controllers/documentController.js:191-210 | the upload handler; `UploadRejections`, `UploadStores` and `UploadRunsTheChain` state its outcomes |
| Pipeline.SummarizeDocument | backend/controllers/documentController.js:265-274 | the summary handler; `SummaryReplies` states its replies |
| Pipeline.AskQuestion | backend/controllers/documentController.js:276-287 | the question handler; `QuestionReplies` states its replies |
| Pipeline.DeleteDocument | backend/controllers/documentController.js:289-299 | the delete handler; `DeleteRemovesTheRecord` states its effect |
| Pipeline.ReExtractDocument | backend/controllers/documentController.js:301-309 | the re-extraction handler; `RestartsRunForward` states its trace |
| Pipeline.ReClassifyDocument | backend/controllers/documentController.js:311-319 | the re-classification handler; `RestartsRunForward` states its trace |
| Pipeline.CompareDocuments | backend/controllers/documentController.js:321-348 | the comparison handler; `CompareRejections` and `CompareReplacesResults` state its outcomes |
| Pipeline.ClearComparisonResults | backend/controllers/documentController.js:350-360 | the clearing handler; `ClearEmptiesResults` states its effect |
| Pipeline.FindTargets | backend/controllers/documentController.js:328 | every target found belongs to the caller and comes from the store |
| Pipeline.SimilarityResults | backend/controllers/documentController.js:331-341 | no result names the source, and there is at most one result per target |
| PipelineProperties.ForwardRunMeaning | backend/controllers/documentController.js:52-187 | a forward run is exactly a stretch of the forward order, possibly ended by one Failed |
| PipelineProperties.ForwardRunEndingRouted | backend/controllers/documentController.js:52-187 | a forward run that ends in Routed is the whole rest of the order |
| PipelineProperties.ProgressStep | backend/controllers/documentController.js:34-42 | a successful update touches only its record, keeps every stored record valid and announces exactly its status |
| PipelineProperties.ProgressWithoutPatch | backend/controllers/documentController.js:34-42 | an update that merges no fields cannot fail on a valid store |
| PipelineProperties.FailStep | backend/controllers/documentController.js:77-79 | a catch block's update always goes through: the record becomes Failed with the message as one new last log entry and one event |
| PipelineProperties.AttemptedShape | backend/controllers/documentController.js:55-76 | every `try` block touches only its record, keeps the store valid, and announces the pending status and, when it ran to its end, the done status |
| PipelineProperties.ExtractionRunsForward | backend/controllers/documentController.js:52-80 | the whole chain from extraction touches only its record, keeps the store valid and writes a forward run from Extraction_Pending |
| PipelineProperties.ClassificationRunsForward | backend/controllers/documentController.js:82-98 | the chain from classification writes a forward run from Classification_Pending and touches only its record |
| PipelineProperties.DataExtractionRunsForward | backend/controllers/documentController.js:100-112 | the chain from data extraction writes a forward run from Data_Extraction_Pending |
| PipelineProperties.SentimentRunsForward | backend/controllers/documentController.js:114-128 | the chain from sentiment analysis writes a forward run from Sentiment_Pending |
| PipelineProperties.RenamingRunsForward | backend/controllers/documentController.js:131-165 | the chain from renaming writes a forward run from Renaming_Pending, whether or not renaming throws |
| PipelineProperties.RoutingRunsForward | backend/controllers/documentController.js:167-187 | routing writes a forward run from Routing_Pending |
| PipelineProperties.RoutedRunIsComplete | backend/controllers/documentController.js:52-187 | a run whose last status is Routed wrote every status from Extraction_Pending to Routed, in order |
| PipelineProperties.ExtractionErrorEndsChain | backend/controllers/documentController.js:77-79 | an extraction error ends the chain: the record is Failed with "Extraction Error: " and the message, and nothing later runs |
| PipelineProperties.ExtractorFailureFails | backend/controllers/documentController.js:60-79 | a failing extractor leaves the trace Extraction_Pending, Failed |
| PipelineProperties.ClassificationErrorEndsChain | backend/controllers/documentController.js:95-97 | a classification error makes the record Failed with "Classification Error: " and the message, and nothing later runs |
| PipelineProperties.DataExtractionNeverFails | backend/controllers/documentController.js:100-112 | on a valid store data extraction always completes, stores the service's answer and hands over to sentiment analysis |
| PipelineProperties.ClassificationStores | backend/controllers/documentController.js:86-94 | on a valid store with text, when the label and score cast, the Classified record holds the label as a string and the score as a number, keeps its text, and data extraction runs next |
| PipelineProperties.SentimentNeverFails | backend/controllers/documentController.js:114-128 | on a valid store with text, sentiment analysis always completes, stores the service's label and hands over to renaming |
| PipelineProperties.RoutingErrorEndsChain | backend/controllers/documentController.js:184-186 | a routing error makes the record Failed with "Routing Error: " and the message |
| PipelineProperties.MissingOwnerFailsAfterRouting | backend/controllers/documentController.js:177-186 | a record whose owner is gone is first Routed, with its destination stored, and then Failed by the null read of `email` |
| PipelineProperties.RenamingErrorIsNotFatal | backend/controllers/documentController.js:159-164 | after a renaming error the record is Renamed, keeps its name, gains a "File renaming failed: " entry, and routing runs |
| PipelineProperties.RenamingStores | backend/controllers/documentController.js:135-158 | on a valid store, when the proposed name sanitises to a non-empty name, the Renamed record carries that sanitised name and routing runs next |
| PipelineProperties.NullStructuredDataFailsRename | backend/controllers/documentController.js:138-146 | an Invoice or Contract whose structured data is null makes renaming throw |
| PipelineProperties.EmptySanitizedNameFailsRename | backend/controllers/documentController.js:148-155 | a name that sanitises to empty fails validation of `originalName`, so renaming throws |
| PipelineProperties.GuardsAreNoOps | backend/controllers/documentController.js:83-116 | every stage does nothing for a missing record; classification and sentiment analysis do nothing for a record without text |
| PipelineProperties.TextlessSkips | backend/controllers/documentController.js:84 | the chain's calls to classification and sentiment analysis do nothing for a record without text |
| PipelineProperties.DataExtractionIgnoresEmptyText | backend/controllers/documentController.js:100-116 | data extraction runs on a record without text, and the chain then stops at Data_Extracted |
| PipelineProperties.EmptyExtractionStalls | backend/controllers/documentController.js:75-84 | an extraction that yields empty text leaves the record at Extracted with nothing more written |
| HandlerProperties.UploadRejections | backend/controllers/documentController.js:191-210 | no file is a 400; a taken id or a record that fails validation is a 500; either way nothing is stored or emitted |
| HandlerProperties.UploadStores | backend/controllers/documentController.js:194-206 | a valid upload stores the created record, announces it, replies 201 with it and runs the chain on it |
| HandlerProperties.ChainAfterCreation | backend/controllers/documentController.js:194-206 | the chain on a new record keeps the store valid, leaves every other record alone, and its statuses start with Ingested and follow the forward order |
| HandlerProperties.UploadRunsTheChain | backend/controllers/documentController.js:191-206 | a valid upload replies 201 with an Ingested record whose one log entry names the uploader; what is announced is a forward run from Ingested and no other record changes |
| HandlerProperties.EligibleMembers | backend/controllers/documentController.js:332-333 | a target is scored exactly when it is not the source and has text |
| HandlerProperties.SimilarityResultsScoreEligible | backend/controllers/documentController.js:331-341 | the results are the eligible targets' scores, one for one and in target order |
| HandlerProperties.FindTargetsMembers | backend/controllers/documentController.js:328 | every requested id of a record the caller owns is among the targets |
| HandlerProperties.CompareRejections | backend/controllers/documentController.js:326-327 | a refused access is a 500 "Comparison error."; a source without text is a 400; neither changes anything |
| HandlerProperties.CompareReplacesResults | backend/controllers/documentController.js:321-348 | a comparison replaces the source's results with the new scores instead of appending, writes back the status it read twice, adds the two log entries, changes no other record and replies with the saved source |
| HandlerProperties.ClearEmptiesResults | backend/controllers/documentController.js:350-360 | clearing empties the results, saves them with updatedAt now and announces the record; nothing else changes |
| HandlerProperties.DeleteRemovesTheRecord | backend/controllers/documentController.js:289-299 | deleting removes exactly that record, emits one deletion event and announces no status |
| HandlerProperties.RestartsRunForward | backend/controllers/documentController.js:301-319 | a re-extraction writes a forward run from Extraction_Pending and a re-classification one from Classification_Pending; each touches only its record |
| HandlerProperties.RefusedRequestsChangeNothing | backend/controllers/documentController.js:265-360 | a request the access check refuses replies with its code and message and changes nothing |
| HandlerProperties.SummaryReplies | backend/controllers/documentController.js:265-274 | a summary of a record without text is a 400; otherwise it is the model's reply or the fixed apology |
| HandlerProperties.QuestionReplies | backend/controllers/documentController.js:276-287 | an empty question is a 400 before the record is looked at; after that comes the access check, then the text, then the model |
| Store.DocumentStore.UpdateDocumentProgress | backend/controllers/documentController.js:34-42 | the in-place update leaves the store as `Progress` gives it, or unchanged with the error when the save fails |
| Store.DocumentStore.Fail | backend/controllers/documentController.js:77-79 | the catch block's update leaves the store as `Fail` gives it |
| Store.DocumentStore.Attempt | backend/controllers/documentController.js:55-76 | a `try` block leaves the store as `Attempted` gives it, and reports a throw exactly when it threw, with its message |
| Store.DocumentStore.ProcessExtraction | backend/controllers/documentController.js:52-80 | running extraction in place leaves the store as the extraction chain gives it |
| Store.DocumentStore.ProcessClassification | backend/controllers/documentController.js:82-98 | likewise for classification |
| Store.DocumentStore.ProcessDataExtraction | backend/controllers/documentController.js:100-112 | likewise for data extraction |
| Store.DocumentStore.ProcessSentimentAnalysis | backend/controllers/documentController.js:114-128 | likewise for sentiment analysis |
| Store.DocumentStore.ProcessFileRenaming | backend/controllers/documentController.js:131-165 | likewise for renaming, including its recovery path |
| Store.DocumentStore.ProcessRouting | backend/controllers/documentController.js:167-187 | likewise for routing, including the notification's throw |
| Store.DocumentStore.UploadDocument | backend/controllers/documentController.js:191-210 | the new store and the reply are those of the upload handler |
| Store.DocumentStore.DeleteDocument | backend/controllers/documentController.js:289-299 | the new store and the reply are those of the delete handler |
| Store.DocumentStore.ReExtractDocument | backend/controllers/documentController.js:301-309 | the new store and the reply are those of the re-extraction handler |
| Store.DocumentStore.ReClassifyDocument | backend/controllers/documentController.js:311-319 | the new store and the reply are those of the re-classification handler |
| Store.DocumentStore.ScoreTargets | backend/controllers/documentController.js:331-341 | the loop's pushed results equal the similarity results of the targets |
| Store.DocumentStore.CompareDocuments | backend/controllers/documentController.js:321-348 | the new store and the reply are those of the comparison handler |
| Store.DocumentStore.ClearComparisonResults | backend/controllers/documentController.js:350-360 | the new store and the reply are those of the clearing handler |
| DocumentContext.MergeOptions | frontend/src/context/DocumentContext.jsx:101-107 | every supplied field is overwritten, the others are kept, and the page is always 1 |
| DocumentContext.MergeOptionsIdempotent | frontend/src/context/DocumentContext.jsx:101-107 | applying a change twice is applying it once; an empty change only returns to page 1 |
| DocumentContext.LaterChangeWins | frontend/src/context/DocumentContext.jsx:101-107 | a later change that supplies every field an earlier one did hides the earlier one |
| DocumentContext.JumpTo | frontend/src/context/DocumentContext.jsx:113-117 | a jump changes only the page, and only when 0 < p ≤ totalPages; otherwise the options are unchanged |
| DocumentContext.JumpStaysOnExistingPages | frontend/src/context/DocumentContext.jsx:113-117 | from an existing page, a jump never leaves the existing pages |
| DocumentContext.DocumentProvider.constructor | frontend/src/context/DocumentContext.jsx:18-31 | the provider starts with no documents, loading, page 1 of 1, and options page 1, filter all, empty search, sorted by createdAt descending |
| DocumentContext.DocumentProvider.UpdateQueryOptions | frontend/src/context/DocumentContext.jsx:101-107 | the options become the merge, and nothing else changes |
| DocumentContext.DocumentProvider.GoToPage | frontend/src/context/DocumentContext.jsx:113-117 | the options become the guarded jump against the last reported total, and nothing else changes |
| DocumentContext.DocumentProvider.FetchDocuments | frontend/src/context/DocumentContext.jsx:37-58 | without a user the list is emptied with no request; a reply sets the documents and the pagination; a failure empties the list; loading always ends and the options are untouched |
| CompareModal.Without | frontend/src/components/CompareModal.jsx:12 | the filter never lengthens the list; `WithoutMembers` states which ids remain |
| CompareModal.WithoutMembers | frontend/src/components/CompareModal.jsx:12 | the filter keeps every other id and drops only the given one |
| CompareModal.WithoutConcat | frontend/src/components/CompareModal.jsx:12 | the filter works piece by piece, so the remaining ids keep their order |
| CompareModal.Toggle | frontend/src/components/CompareModal.jsx:9-15 | `handleSelect`'s new list; `ToggleMembers` and `ToggleTwiceRestores` state its effect |
| CompareModal.ToggleMembers | frontend/src/components/CompareModal.jsx:9-15 | after a toggle the id is selected exactly when it was not, and every other id is selected exactly as before |
| CompareModal.ToggleTwiceRestores | frontend/src/components/CompareModal.jsx:9-15 | toggling an absent id twice restores the list exactly |
| CompareModal.WithoutDistinct | frontend/src/components/CompareModal.jsx:12 | filtering a duplicate-free list leaves it duplicate-free |
| CompareModal.ToggleKeepsDistinct | frontend/src/components/CompareModal.jsx:9-15 | a duplicate-free selection stays duplicate-free after a toggle |
| CompareModal.TargetDocs | frontend/src/components/CompareModal.jsx:33 | the documents offered are no more than all of them; `TargetDocsMembers` states which |
| CompareModal.TargetDocsMembers | frontend/src/components/CompareModal.jsx:33 | the documents offered are exactly the ones other than the source |
| CompareModal.CompareSelection.constructor | frontend/src/components/CompareModal.jsx:7 | a dialog starts with no ids selected |
| CompareModal.CompareSelection.HandleSelect | frontend/src/components/CompareModal.jsx:9-15 | the selection becomes its toggle by the id |
| CompareModal.CompareSelection.HandleRunComparison | frontend/src/components/CompareModal.jsx:17-23 | no request is made exactly when nothing is selected; otherwise the request names the source and the selected ids |
| DocumentsPage.NextSortOrder | frontend/src/pages/DocumentsPage.jsx:79 | the order is desc exactly when the field is already the sort field in ascending order; otherwise asc |
| DocumentsPage.SortChange | frontend/src/pages/DocumentsPage.jsx:78-81 | the change `handleSort` sends: the field and the next order; `SortClicks` states what a click does |
| DocumentsPage.SortClicks | frontend/src/pages/DocumentsPage.jsx:78-81 | a click sorts by the field from page 1, keeps the filter and the search, and a second click on the same field reverses the order |
| DocumentsPage.PaginationBar | frontend/src/pages/DocumentsPage.jsx:13-26 | nothing is shown exactly when there is at most one page; Previous is disabled exactly when page ≤ 1 or loading, Next exactly when page ≥ totalPages or loading |
| DocumentsPage.EnabledButtonsMove | frontend/src/pages/DocumentsPage.jsx:17-23 | on an existing page, an enabled button's jump is taken and moves the page by one |

## Left out

- Text extraction engines (Tesseract, pdf-parse, mammoth, file reads, the unlink in delete): I/O and foreign libraries. The extractor is a parameter chosen by `ExtractorFor`.
- The Gemini calls, the chatbot and the resume ATS analysis: foreign network calls. Only the normalisation around the general calls is modelled; the model is a parameter from prompt to reply, and a prompt keeps only the excerpts it carries.
- `JSON.parse`: a parameter from a string to a JSON value or a syntax error. JSON numbers are integers.
- `getDocuments`'s Mongo query (search regex, filters, sort, skip and limit on the store), `getDocumentById`, document conversion and reports, and the analytics and admin controllers: storage-engine internals and output formats. Only the pagination arithmetic is modelled.
- Real time: `now` is one value per run, and the extraction duration is given preformatted, because `Date.now` and `toFixed` are a clock and floating point.
- Socket.IO: emission is an appended event list, with no delivery.
- Concurrency: stages run one after another. The races between a restart and a running chain, and between a comparison and the chain (the status read at line 330 is written back at 342), are not modelled.
- Authentication, JWTs and the email sender. The notification is modelled only by its read of the owner's address, which throws when the owner no longer exists.
- The stage's work is computed from the record as read before its pending save. That save changes only the status and the log, neither of which the work reads.
- Mongoose casts of dates, ObjectIds and the other schema types: only the `String`, `Number` and enum paths that the pipeline assigns are modelled.
- DocumentModel.CastNumber: only integer values are modelled, because a confidence score is an `int` here (and JSON numbers are integers). Mongoose's `Number()` cast also stores fractional, exponent, hexadecimal and infinite strings such as `"92.5"`, `"1e2"`, `"0x10"` and `"Infinity"`. The model rejects them, so a provider reply like `{"type":"Invoice","score":"92.5"}` makes classification `Failed` with a cast error, where the source stores the score 92.5 and goes on.
- DocumentModel.StringToInteger: `Number(s)` only for white space and optionally signed runs of decimal digits, for the reason given for `CastNumber`.
- DocumentModel.CastNumber: Mongoose casts `null` and `""` on a `Number` path to `null` rather than rejecting them; the model rejects both. Neither can reach the cast in the pipeline, since the score passes through `|| 0` and is therefore truthy.
- DocumentModel.CastString: Mongoose casts `null` on a `String` path to `null`; the model rejects it. It cannot reach a cast in the pipeline: the label passes through `|| 'Unclassified'`, and the sentiment is always one of the four labels.
- DocumentModel.CastMessage: the validation message is shortened to `Document validation failed: <path>: Cast to <type> failed` for the first failing path. Mongoose also quotes the value and its type, and lists every failing path.
- JsRuntime.Prefix: `substring` counts UTF-16 code units, while the model counts characters. A text with characters outside the Basic Multilingual Plane is cut at a different place, and a surrogate pair is never split.
- Comparison targets come back in the order first requested, once each; the order Mongo returns for `$in` is not modelled.
- React rendering, toasts, `WorkflowProgressBar`, the status colour helpers, `formatDate` and the other pages and components: display only.
- DocumentContext.DocumentProvider.FetchDocuments: the request and its completion are one step, with the reply as a parameter, because the asynchronous request is not modelled.
- DocumentContext.MergeOptions: a change may supply only the four known keys (filter, search, sortBy, sortOrder); arbitrary extra keys are not modelled.
- Pipeline.FindTargets: the contract states only that every target belongs to the caller; that every requested owned record is found is a separate lemma, `FindTargetsMembers`.
