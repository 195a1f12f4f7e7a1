/**
 * The document record: its status and sentiment enumerations, its field
 * defaults, the shapes of its log entries and comparison results, the casts
 * and validation a save applies, and the pre-save hook that refreshes
 * `updatedAt`.
 */
module DocumentModel {
  import opened Wrappers
  import opened JsRuntime

  type DocId = string
  type UserId = string

  // ---------------------------------------------------------------------
  // Enumerations
  // ---------------------------------------------------------------------

  /** The fourteen workflow statuses a record can hold. */
  datatype Status =
    | Ingested
    | ExtractionPending
    | Extracted
    | ClassificationPending
    | Classified
    | DataExtractionPending
    | DataExtracted
    | SentimentPending
    | Analyzed
    | RenamingPending
    | Renamed
    | RoutingPending
    | Routed
    | Failed

  /** The stored spelling of each status. */
  function StatusName(s: Status): string {
    match s
    case Ingested => "Ingested"
    case ExtractionPending => "Extraction_Pending"
    case Extracted => "Extracted"
    case ClassificationPending => "Classification_Pending"
    case Classified => "Classified"
    case DataExtractionPending => "Data_Extraction_Pending"
    case DataExtracted => "Data_Extracted"
    case SentimentPending => "Sentiment_Pending"
    case Analyzed => "Analyzed"
    case RenamingPending => "Renaming_Pending"
    case Renamed => "Renamed"
    case RoutingPending => "Routing_Pending"
    case Routed => "Routed"
    case Failed => "Failed"
  }

  /** The `enum` list of the `status` path, in schema order. */
  const StatusEnum: seq<string> := [
    "Ingested", "Extraction_Pending", "Extracted", "Classification_Pending", "Classified",
    "Data_Extraction_Pending", "Data_Extracted", "Sentiment_Pending", "Analyzed",
    "Renaming_Pending", "Renamed", "Routing_Pending", "Routed", "Failed"
  ]

  /** The enum validator of the `status` path: a string is accepted exactly when
      it is one of the fourteen names, and then it names a status. */
  function ParseStatus(name: string): (r: Option<Status>)
    ensures r.Some? <==> name in StatusEnum
    ensures r.Some? ==> StatusName(r.value) == name
  {
    if name == "Ingested" then Some(Ingested)
    else if name == "Extraction_Pending" then Some(ExtractionPending)
    else if name == "Extracted" then Some(Extracted)
    else if name == "Classification_Pending" then Some(ClassificationPending)
    else if name == "Classified" then Some(Classified)
    else if name == "Data_Extraction_Pending" then Some(DataExtractionPending)
    else if name == "Data_Extracted" then Some(DataExtracted)
    else if name == "Sentiment_Pending" then Some(SentimentPending)
    else if name == "Analyzed" then Some(Analyzed)
    else if name == "Renaming_Pending" then Some(RenamingPending)
    else if name == "Renamed" then Some(Renamed)
    else if name == "Routing_Pending" then Some(RoutingPending)
    else if name == "Routed" then Some(Routed)
    else if name == "Failed" then Some(Failed)
    else None
  }

  /** Every status is stored under an enum name the validator accepts back. */
  lemma StatusNameRoundTrip(s: Status)
    ensures StatusName(s) in StatusEnum
    ensures ParseStatus(StatusName(s)) == Some(s)
  {
  }

  /** The four sentiments the `sentiment` path admits; `NotAvailable` is stored as "N/A". */
  datatype Sentiment = Positive | Negative | Neutral | NotAvailable

  function SentimentName(s: Sentiment): string {
    match s
    case Positive => "Positive"
    case Negative => "Negative"
    case Neutral => "Neutral"
    case NotAvailable => "N/A"
  }

  /** The `enum` list of the `sentiment` path. */
  const SentimentEnum: seq<string> := ["Positive", "Negative", "Neutral", "N/A"]

  /** The enum validator of the `sentiment` path. */
  function ParseSentiment(name: string): (r: Option<Sentiment>)
    ensures r.Some? <==> name in SentimentEnum
    ensures r.Some? ==> SentimentName(r.value) == name
  {
    if name == "Positive" then Some(Positive)
    else if name == "Negative" then Some(Negative)
    else if name == "Neutral" then Some(Neutral)
    else if name == "N/A" then Some(NotAvailable)
    else None
  }

  lemma SentimentNameRoundTrip(s: Sentiment)
    ensures SentimentName(s) in SentimentEnum
    ensures ParseSentiment(SentimentName(s)) == Some(s)
  {
  }

  // ---------------------------------------------------------------------
  // The record
  // ---------------------------------------------------------------------

  /** One entry of `logs`. */
  datatype LogEntry = LogEntry(timestamp: int, message: string)

  /** One entry of `similarityResults`. */
  datatype SimilarityResult = SimilarityResult(comparedDocId: DocId, comparedDocName: string, similarityScore: int)

  /** A stored document record. Times are integers (milliseconds). */
  datatype Document = Document(
    id: DocId,
    originalName: string,
    uploadedName: string,
    storageName: string,
    filePath: string,
    fileType: string,
    fileSize: int,
    owner: UserId,
    status: Status,
    extractedText: string,
    structuredData: Json,
    sentiment: Sentiment,
    classification: string,
    confidenceScore: int,
    routeDestination: string,
    logs: seq<LogEntry>,
    similarityResults: seq<SimilarityResult>,
    createdAt: int,
    updatedAt: int)

  /** What an upload supplies for a new record. */
  datatype UploadedFile = UploadedFile(originalName: string, storageName: string, filePath: string, fileType: string, fileSize: int)

  /** `Document.create(...)` before validation: the supplied fields, the given
      initial log messages stamped with `now`, and the schema defaults for the rest. */
  function NewDocument(id: DocId, file: UploadedFile, owner: UserId, messages: seq<string>, now: int): (d: Document)
    ensures d.id == id && d.owner == owner
    ensures d.originalName == file.originalName && d.uploadedName == file.originalName
    ensures d.storageName == file.storageName && d.filePath == file.filePath
    ensures d.fileType == file.fileType && d.fileSize == file.fileSize
    ensures d.status == Ingested
    ensures d.extractedText == "" && d.structuredData == JObj(map[])
    ensures d.sentiment == NotAvailable && StatusName(d.status) == "Ingested" && SentimentName(d.sentiment) == "N/A"
    ensures d.classification == "Unclassified" && d.confidenceScore == 0 && d.routeDestination == "None"
    ensures |d.logs| == |messages| && forall k :: 0 <= k < |messages| ==> d.logs[k] == LogEntry(now, messages[k])
    ensures d.similarityResults == []
    ensures d.createdAt == now && d.updatedAt == now
  {
    Document(
      id := id,
      originalName := file.originalName,
      uploadedName := file.originalName,
      storageName := file.storageName,
      filePath := file.filePath,
      fileType := file.fileType,
      fileSize := file.fileSize,
      owner := owner,
      status := Ingested,
      extractedText := "",
      structuredData := JObj(map[]),
      sentiment := NotAvailable,
      classification := "Unclassified",
      confidenceScore := 0,
      routeDestination := "None",
      logs := seq(|messages|, k requires 0 <= k < |messages| => LogEntry(now, messages[k])),
      similarityResults := [],
      createdAt := now,
      updatedAt := now)
  }

  // ---------------------------------------------------------------------
  // Casting on assignment
  // ---------------------------------------------------------------------

  /** The cast of a value assigned to a `String` path: an object whose `_id` is a
      non-empty string gives that `_id`; other arrays and plain objects are
      rejected; `null` is not a string; every other value gives `String(value)`. */
  function CastString(j: Json): (r: Option<string>)
    ensures j.JStr? ==> r == Some(j.s)
    ensures j.JArr? || j.JNull? ==> r.None?
    ensures r.Some? && !j.JObj? ==> r.value == JsToString(j)
  {
    match j
    case JNull => None
    case JArr(_) => None
    case JObj(fields) =>
      if "_id" in fields && fields["_id"].JStr? && fields["_id"].s != "" then Some(fields["_id"].s) else None
    case _ => Some(JsToString(j))
  }

  /** `Number(s)` for the strings this model covers: white space only gives 0,
      an optionally signed run of decimal digits gives its value; anything else
      is treated as not a number. */
  function StringToInteger(s: string): (r: Option<int>)
  {
    var t := Trim(s);
    if t == "" then Some(0)
    else
      var negative := t[0] == '-';
      var digits := if t[0] == '-' || t[0] == '+' then t[1..] else t;
      if digits != [] && LeadingDigits(digits, false) == |digits| then
        Some(if negative then -(DigitsValue(digits, false) as int) else DigitsValue(digits, false) as int)
      else None
  }

  /** The cast of a value assigned to a `Number` path: numbers pass, `true`
      and `false` become 1 and 0, a string goes through `Number`, and arrays,
      objects and `null` are rejected. */
  function CastNumber(j: Json): (r: Option<int>)
    ensures j.JNum? ==> r == Some(j.n)
    ensures j.JArr? || j.JObj? || j.JNull? ==> r.None?
    ensures j.JBool? ==> r == Some(if j.b then 1 else 0)
  {
    match j
    case JNum(n) => Some(n)
    case JBool(b) => Some(if b then 1 else 0)
    case JStr(s) => if s == "" then None else StringToInteger(s)
    case _ => None
  }

  /** A string holding a printed integer, with any white space around it, casts
      to that integer: `"85"`, `" -3\n"`, `"+7"` aside, the form a provider
      sends when it quotes the score. */
  lemma CastNumberOfDecimalString(pre: string, n: int, post: string)
    requires forall k :: 0 <= k < |pre| ==> IsWhitespace(pre[k])
    requires forall k :: 0 <= k < |post| ==> IsWhitespace(post[k])
    ensures CastNumber(JStr(pre + IntToDecimal(n) + post)) == Some(n)
  {
    var d := IntToDecimal(n);
    assert pre + d + post != "";
    assert Trim(pre + d + post) == d by {
      var kept := TrimKeepsAfter(pre, d, post);
      assert kept == [];
      assert d + kept == d;
    }
    assert StringToInteger(pre + d + post) == Some(n) by {
      StringToIntegerOfDecimal(pre + d + post, n);
    }
  }

  /** `Number` of a string that trims to a printed integer is that integer. */
  lemma StringToIntegerOfDecimal(s: string, n: int)
    requires Trim(s) == IntToDecimal(n)
    ensures StringToInteger(s) == Some(n)
  {
    var d := IntToDecimal(n);
    var digits := if n < 0 then NatToDecimal(-n) else NatToDecimal(n);
    assert (if d[0] == '-' || d[0] == '+' then d[1..] else d) == digits;
    LeadingDigitsOfDigits(digits, "");
    assert digits + "" == digits;
  }

  /** The fields an update assigns with `Object.assign`; absent ones are left as they are.
      `classification` and `confidenceScore` carry the raw values a provider sent. */
  datatype Patch = Patch(
    extractedText: Option<string>,
    classification: Option<Json>,
    confidenceScore: Option<Json>,
    structuredData: Option<Json>,
    sentiment: Option<string>,
    originalName: Option<string>,
    routeDestination: Option<string>,
    similarityResults: Option<seq<SimilarityResult>>)

  const NoPatch: Patch := Patch(None, None, None, None, None, None, None, None)

  /** The message of the validation error a failed cast leaves on the record. */
  function CastMessage(path: string, kind: string): string {
    "Document validation failed: " + path + ": Cast to " + kind + " failed"
  }

  /** `Object.assign(doc, data)`: each supplied field replaces the stored one after
      the schema's cast; a value that does not cast fails the next save with the
      message of the first such field. */
  function Assign(d: Document, p: Patch): (r: Outcome<Document>)
    ensures r.Ok? <==>
      && (p.classification.Some? ==> CastString(p.classification.value).Some?)
      && (p.confidenceScore.Some? ==> CastNumber(p.confidenceScore.value).Some?)
      && (p.sentiment.Some? ==> ParseSentiment(p.sentiment.value).Some?)
    ensures r.Ok? ==> Untouched(d, r.value)
  {
    var classification := if p.classification.Some? then CastString(p.classification.value) else Some(d.classification);
    var score := if p.confidenceScore.Some? then CastNumber(p.confidenceScore.value) else Some(d.confidenceScore);
    var sentiment := if p.sentiment.Some? then ParseSentiment(p.sentiment.value) else Some(d.sentiment);
    if classification.None? then Err(CastMessage("classification", "String"))
    else if score.None? then Err(CastMessage("confidenceScore", "Number"))
    else if sentiment.None? then Err(CastMessage("sentiment", "enum"))
    else Ok(Overwrite(d, p, classification.value, score.value, sentiment.value))
  }

  /** `d` with the fields `p` supplies replaced, the three cast ones by their
      cast values. */
  function Overwrite(d: Document, p: Patch, classification: string, score: int, sentiment: Sentiment): (e: Document)
    ensures Untouched(d, e)
    ensures e.classification == classification && e.confidenceScore == score && e.sentiment == sentiment
  {
    d.(extractedText := if p.extractedText.Some? then p.extractedText.value else d.extractedText,
       classification := classification,
       confidenceScore := score,
       structuredData := if p.structuredData.Some? then p.structuredData.value else d.structuredData,
       sentiment := sentiment,
       originalName := if p.originalName.Some? then p.originalName.value else d.originalName,
       routeDestination := if p.routeDestination.Some? then p.routeDestination.value else d.routeDestination,
       similarityResults := if p.similarityResults.Some? then p.similarityResults.value else d.similarityResults)
  }

  /** The fields no update assigns: identity, owner, storage, workflow status, logs and timestamps. */
  predicate Untouched(d: Document, e: Document) {
    e.id == d.id && e.owner == d.owner && e.status == d.status && e.logs == d.logs
    && e.uploadedName == d.uploadedName && e.storageName == d.storageName && e.filePath == d.filePath
    && e.fileType == d.fileType && e.fileSize == d.fileSize && e.createdAt == d.createdAt && e.updatedAt == d.updatedAt
  }

  /** `e` holds what `Object.assign` with `p` leaves in `d`: each supplied field
      after its cast, each absent field as it was. */
  predicate Merged(d: Document, p: Patch, e: Document) {
    && e.extractedText == (if p.extractedText.Some? then p.extractedText.value else d.extractedText)
    && (p.classification.Some? ==> CastString(p.classification.value) == Some(e.classification))
    && (p.classification.None? ==> e.classification == d.classification)
    && (p.confidenceScore.Some? ==> CastNumber(p.confidenceScore.value) == Some(e.confidenceScore))
    && (p.confidenceScore.None? ==> e.confidenceScore == d.confidenceScore)
    && e.structuredData == (if p.structuredData.Some? then p.structuredData.value else d.structuredData)
    && (p.sentiment.Some? ==> ParseSentiment(p.sentiment.value) == Some(e.sentiment))
    && (p.sentiment.None? ==> e.sentiment == d.sentiment)
    && e.originalName == (if p.originalName.Some? then p.originalName.value else d.originalName)
    && e.routeDestination == (if p.routeDestination.Some? then p.routeDestination.value else d.routeDestination)
    && e.similarityResults == (if p.similarityResults.Some? then p.similarityResults.value else d.similarityResults)
  }

  /** A successful assignment merges the patch into the record and touches nothing else. */
  lemma AssignMerges(d: Document, p: Patch)
    requires Assign(d, p).Ok?
    ensures Merged(d, p, Assign(d, p).value)
    ensures Untouched(d, Assign(d, p).value)
  {
    var c := if p.classification.Some? then CastString(p.classification.value) else Some(d.classification);
    var n := if p.confidenceScore.Some? then CastNumber(p.confidenceScore.value) else Some(d.confidenceScore);
    var t := if p.sentiment.Some? then ParseSentiment(p.sentiment.value) else Some(d.sentiment);
    assert Assign(d, p).value == Overwrite(d, p, c.value, n.value, t.value);
  }

  /** Assigning nothing changes nothing. */
  lemma AssignNothing(d: Document)
    ensures Assign(d, NoPatch) == Ok(d)
  {
  }

  // ---------------------------------------------------------------------
  // Validation and the pre-save hook
  // ---------------------------------------------------------------------

  /** The `required: true` string paths hold non-empty strings. */
  predicate RequiredPresent(d: Document) {
    d.originalName != "" && d.uploadedName != "" && d.storageName != "" && d.filePath != "" && d.fileType != ""
  }

  /** The message of the validation error for a missing required path. */
  function RequiredMessage(path: string): string {
    "Document validation failed: " + path + ": Path `" + path + "` is required."
  }

  /** `doc.save()`: validation of the required paths, then the pre-save hook that
      sets `updatedAt` to the current time. A valid record is stored with only
      `updatedAt` changed; an invalid one is refused and nothing is stored. */
  function Save(d: Document, now: int): (r: Outcome<Document>)
    ensures r.Ok? <==> RequiredPresent(d)
    ensures r.Ok? ==> r.value == d.(updatedAt := now)
    ensures r.Ok? ==> RequiredPresent(r.value) && r.value.updatedAt == now
  {
    if d.originalName == "" then Err(RequiredMessage("originalName"))
    else if d.uploadedName == "" then Err(RequiredMessage("uploadedName"))
    else if d.storageName == "" then Err(RequiredMessage("storageName"))
    else if d.filePath == "" then Err(RequiredMessage("filePath"))
    else if d.fileType == "" then Err(RequiredMessage("fileType"))
    else Ok(d.(updatedAt := now))
  }
}
