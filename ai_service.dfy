/**
 * The normalisation the AI service applies around each model call: which
 * prefix of the input reaches the prompt, how a reply is cleaned and parsed,
 * and which fallback replaces a reply that is unusable or an exception.
 * The model itself is an oracle from prompt to reply; `JSON.parse` is an
 * oracle from text to an optional JSON value (`None` for a syntax error).
 */
module AiService {
  import opened Wrappers
  import opened JsRuntime

  /** A prompt sent to the model. Each prompt's fixed wording is determined by
      its kind; what varies is the (truncated) text and, for Q&A, the question. */
  datatype Prompt =
    | ClassifyPrompt(excerpt: string)
    | InvoiceFieldsPrompt(excerpt: string)
    | ContractFieldsPrompt(excerpt: string)
    | SummaryPrompt(excerpt: string)
    | ComparePrompt(first: string, second: string)
    | QuestionPrompt(excerpt: string, question: string)
    | SentimentPrompt(excerpt: string)

  /** The model: the text of its response, or the message of the error the call threw. */
  type Model = Prompt -> Outcome<string>

  /** `JSON.parse`: a value, or `None` when it throws. */
  type JsonParser = string -> Option<Json>

  /** How many characters of the input each prompt carries (`substring(0, n)`). */
  const ClassifyLimit: nat := 4000
  const StructuredLimit: nat := 4000
  const SentimentLimit: nat := 4000
  const SummaryLimit: nat := 8000
  const QuestionLimit: nat := 12000
  const CompareLimit: nat := 2000

  // ---------------------------------------------------------------------
  // Cleaning a JSON reply
  // ---------------------------------------------------------------------

  /** `s.replace(/```json|```/g, '')`: scanning left to right, every occurrence of
      "```json" (tried first) or "```" is removed; other characters are kept. */
  function RemoveFences(s: string): (r: string)
    ensures |r| <= |s|
    ensures (forall k :: 0 <= k < |s| ==> s[k] != '`') ==> r == s
    decreases |s|
  {
    if s == [] then []
    else if s[0] != '`' then [s[0]] + RemoveFences(s[1..])
    else if |s| >= 7 && s[..7] == "```json" then RemoveFences(s[7..])
    else if |s| >= 3 && s[..3] == "```" then RemoveFences(s[3..])
    else [s[0]] + RemoveFences(s[1..])
  }

  /** Text without a backtick passes through fence removal untouched, whatever follows it. */
  lemma {:induction false} RemoveFencesKeepsPlainText(a: string, b: string)
    requires forall k :: 0 <= k < |a| ==> a[k] != '`'
    ensures RemoveFences(a + b) == a + RemoveFences(b)
  {
    if a != [] {
      assert (a + b)[0] == a[0];
      assert (a + b)[1..] == a[1..] + b;
      RemoveFencesKeepsPlainText(a[1..], b);
      calc {
        RemoveFences(a + b);
        [a[0]] + RemoveFences(a[1..] + b);
        [a[0]] + (a[1..] + RemoveFences(b));
        { assert [a[0]] + a[1..] == a; }
        a + RemoveFences(b);
      }
    } else {
      assert a + b == b;
    }
  }

  /** The text handed to `JSON.parse`: fences removed, then trimmed. */
  function CleanJsonReply(reply: string): (r: string)
    ensures |r| <= |reply|
    ensures r != [] ==> !IsWhitespace(r[0]) && !IsWhitespace(r[|r| - 1])
  {
    Trim(RemoveFences(reply))
  }

  /** A reply wrapped in a ```json ... ``` block is reduced to its trimmed body. */
  lemma FencedReplyIsUnwrapped(body: string)
    requires forall k :: 0 <= k < |body| ==> body[k] != '`'
    ensures CleanJsonReply("```json" + body + "```") == Trim(body)
  {
    var s := "```json" + body + "```";
    assert s[..7] == "```json";
    assert s[7..] == body + "```";
    RemoveFencesKeepsPlainText(body, "```");
    assert RemoveFences("```") == "" by {
      assert "```"[..3] == "```";
      assert "```"[3..] == [];
    }
    assert body + "" == body;
  }

  // ---------------------------------------------------------------------
  // Classification
  // ---------------------------------------------------------------------

  /** The prompt for classification carries the first 4000 characters of the text. */
  function ClassifyPromptFor(text: string): (p: Prompt)
    ensures p.ClassifyPrompt? && p.excerpt <= text && |p.excerpt| == Min(|text|, ClassifyLimit)
  {
    ClassifyPrompt(Prefix(text, ClassifyLimit))
  }

  /** What classification returns when the call throws or its reply is not JSON. */
  const ClassificationFailed: Json := JObj(map["type" := JStr("Classification Failed"), "score" := JNum(0)])

  /** `classifyTextWithGemini`: the parsed reply, or `ClassificationFailed` when the
      model call throws or the cleaned reply does not parse. */
  function ClassifyText(text: string, model: Model, parse: JsonParser): (r: Json)
    ensures model(ClassifyPromptFor(text)).Err? ==> r == ClassificationFailed
    ensures r != ClassificationFailed ==>
      model(ClassifyPromptFor(text)).Ok? && parse(CleanJsonReply(model(ClassifyPromptFor(text)).value)) == Some(r)
    ensures model(ClassifyPromptFor(text)).Ok? && parse(CleanJsonReply(model(ClassifyPromptFor(text)).value)).None?
      ==> r == ClassificationFailed
    ensures model(ClassifyPromptFor(text)).Ok? && parse(CleanJsonReply(model(ClassifyPromptFor(text)).value)).Some?
      ==> r == parse(CleanJsonReply(model(ClassifyPromptFor(text)).value)).value
  {
    match model(ClassifyPromptFor(text))
    case Err(_) => ClassificationFailed
    case Ok(reply) =>
      match parse(CleanJsonReply(reply))
      case None => ClassificationFailed
      case Some(j) => j
  }

  // ---------------------------------------------------------------------
  // Structured data
  // ---------------------------------------------------------------------

  /** The prompt for structured data, chosen by label: only "Invoice" and
      "Contract" have one; it carries the first 4000 characters of the text. */
  function StructuredPromptFor(text: string, classification: string): (p: Option<Prompt>)
    ensures p.Some? <==> classification == "Invoice" || classification == "Contract"
    ensures classification == "Invoice" ==> p.Some? && p.value.InvoiceFieldsPrompt?
    ensures classification == "Contract" ==> p.Some? && p.value.ContractFieldsPrompt?
    ensures p.Some? ==> p.value.excerpt <= text && |p.value.excerpt| == Min(|text|, StructuredLimit)
  {
    if classification == "Invoice" then Some(InvoiceFieldsPrompt(Prefix(text, StructuredLimit)))
    else if classification == "Contract" then Some(ContractFieldsPrompt(Prefix(text, StructuredLimit)))
    else None
  }

  /** What structured extraction returns when the call throws or its reply is not JSON. */
  const StructuredDataFailure: Json := JObj(map["error" := JStr("Failed to extract structured data.")])

  /** `extractStructuredData`: `{}` without a model call for labels with no field
      schema; otherwise the parsed reply, or `StructuredDataFailure`. */
  function ExtractStructuredData(text: string, classification: string, model: Model, parse: JsonParser): (r: Json)
    ensures StructuredPromptFor(text, classification).None? ==> r == JObj(map[])
    ensures StructuredPromptFor(text, classification).Some? ==>
      var reply := model(StructuredPromptFor(text, classification).value);
      && (reply.Err? ==> r == StructuredDataFailure)
      && (reply.Ok? && parse(CleanJsonReply(reply.value)).None? ==> r == StructuredDataFailure)
      && (reply.Ok? && parse(CleanJsonReply(reply.value)).Some? ==> r == parse(CleanJsonReply(reply.value)).value)
  {
    match StructuredPromptFor(text, classification)
    case None => JObj(map[])
    case Some(prompt) =>
      match model(prompt)
      case Err(_) => StructuredDataFailure
      case Ok(reply) =>
        match parse(CleanJsonReply(reply))
        case None => StructuredDataFailure
        case Some(j) => j
  }

  /** For a label without a field schema the result is `{}` whatever the model
      and the parser would do: no call is made. */
  lemma NoSchemaNoCall(text: string, classification: string, m1: Model, m2: Model, p1: JsonParser, p2: JsonParser)
    requires classification != "Invoice" && classification != "Contract"
    ensures ExtractStructuredData(text, classification, m1, p1) == ExtractStructuredData(text, classification, m2, p2) == JObj(map[])
  {
  }

  // ---------------------------------------------------------------------
  // Summary and question answering
  // ---------------------------------------------------------------------

  function SummaryPromptFor(text: string): (p: Prompt)
    ensures p.SummaryPrompt? && p.excerpt <= text && |p.excerpt| == Min(|text|, SummaryLimit)
  {
    SummaryPrompt(Prefix(text, SummaryLimit))
  }

  const SummaryFailure: string := "Could not generate a summary at this time."

  /** `summarizeTextWithGemini`: the reply as it came, or a fixed apology when the call throws. */
  function SummarizeText(text: string, model: Model): (r: string)
    ensures model(SummaryPromptFor(text)).Ok? ==> r == model(SummaryPromptFor(text)).value
    ensures model(SummaryPromptFor(text)).Err? ==> r == SummaryFailure
  {
    match model(SummaryPromptFor(text))
    case Ok(reply) => reply
    case Err(_) => SummaryFailure
  }

  function QuestionPromptFor(text: string, question: string): (p: Prompt)
    ensures p.QuestionPrompt? && p.question == question
    ensures p.excerpt <= text && |p.excerpt| == Min(|text|, QuestionLimit)
  {
    QuestionPrompt(Prefix(text, QuestionLimit), question)
  }

  const AnswerFailure: string := "Sorry, I encountered an error trying to answer the question."

  /** `answerQuestionFromText`: the reply as it came, or a fixed apology when the call throws. */
  function AnswerQuestion(text: string, question: string, model: Model): (r: string)
    ensures model(QuestionPromptFor(text, question)).Ok? ==> r == model(QuestionPromptFor(text, question)).value
    ensures model(QuestionPromptFor(text, question)).Err? ==> r == AnswerFailure
  {
    match model(QuestionPromptFor(text, question))
    case Ok(reply) => reply
    case Err(_) => AnswerFailure
  }

  // ---------------------------------------------------------------------
  // Comparison
  // ---------------------------------------------------------------------

  function ComparePromptFor(a: string, b: string): (p: Prompt)
    ensures p.ComparePrompt? && p.first <= a && p.second <= b
    ensures |p.first| == Min(|a|, CompareLimit) && |p.second| == Min(|b|, CompareLimit)
  {
    ComparePrompt(Prefix(a, CompareLimit), Prefix(b, CompareLimit))
  }

  /** `compareTextsWithGemini`: `parseInt` of the trimmed reply in base 10, or 0
      when that is `NaN` or the call throws. The score is not clamped to 0..100. */
  function CompareTexts(a: string, b: string, model: Model): (score: int)
    ensures model(ComparePromptFor(a, b)).Err? ==> score == 0
    ensures model(ComparePromptFor(a, b)).Ok? && ParseInt(Trim(model(ComparePromptFor(a, b)).value), false).None? ==> score == 0
    ensures model(ComparePromptFor(a, b)).Ok? && ParseInt(Trim(model(ComparePromptFor(a, b)).value), false).Some? ==>
      score == ParseInt(Trim(model(ComparePromptFor(a, b)).value), false).value
  {
    match model(ComparePromptFor(a, b))
    case Err(_) => 0
    case Ok(reply) =>
      match ParseInt(Trim(reply), false)
      case None => 0
      case Some(n) => n
  }

  /** A reply that starts, after any white space, with the decimal form of an
      integer scores exactly that integer, negative and above 100 included,
      whatever follows the digits ("85\n", "85%", "85 out of 100"). */
  lemma {:induction false} CompareScoreIsParsedInteger(a: string, b: string, model: Model, pre: string, n: int, rest: string)
    requires forall k :: 0 <= k < |pre| ==> IsWhitespace(pre[k])
    requires rest != [] ==> DigitValue(rest[0], false).None?
    requires model(ComparePromptFor(a, b)) == Ok(pre + IntToDecimal(n) + rest)
    ensures CompareTexts(a, b, model) == n
  {
    ParseIntOfTrimmedDecimal(pre, n, rest);
  }

  // ---------------------------------------------------------------------
  // Sentiment
  // ---------------------------------------------------------------------

  function SentimentPromptFor(text: string): (p: Prompt)
    ensures p.SentimentPrompt? && p.excerpt <= text && |p.excerpt| == Min(|text|, SentimentLimit)
  {
    SentimentPrompt(Prefix(text, SentimentLimit))
  }

  /** The three labels the model is asked to choose from. */
  predicate IsSentimentLabel(s: string) {
    s == "Positive" || s == "Negative" || s == "Neutral"
  }

  /** `analyzeSentimentWithGemini`: always one of "Positive", "Negative",
      "Neutral" or "N/A"; "N/A" exactly when the call throws; a recognised
      trimmed reply is kept and anything else becomes "Neutral". */
  function AnalyzeSentiment(text: string, model: Model): (r: string)
    ensures IsSentimentLabel(r) || r == "N/A"
    ensures r == "N/A" <==> model(SentimentPromptFor(text)).Err?
    ensures model(SentimentPromptFor(text)).Ok? && IsSentimentLabel(Trim(model(SentimentPromptFor(text)).value))
      ==> r == Trim(model(SentimentPromptFor(text)).value)
    ensures model(SentimentPromptFor(text)).Ok? && !IsSentimentLabel(Trim(model(SentimentPromptFor(text)).value))
      ==> r == "Neutral"
  {
    match model(SentimentPromptFor(text))
    case Err(_) => "N/A"
    case Ok(reply) =>
      if IsSentimentLabel(Trim(reply)) then Trim(reply) else "Neutral"
  }

  // ---------------------------------------------------------------------
  // Truncation
  // ---------------------------------------------------------------------

  /** Only the prefix of the input that fits the prompt can influence a result:
      texts that agree on their first 4000 characters classify, extract and
      score sentiment alike; on their first 8000 they summarise alike; on their
      first 12000 they answer alike; comparisons look at 2000 per side. */
  lemma OnlyThePrefixMatters(a: string, b: string, c: string, d: string, kind: string, question: string,
                             model: Model, parse: JsonParser)
    ensures Prefix(a, 4000) == Prefix(b, 4000) ==>
      && ClassifyText(a, model, parse) == ClassifyText(b, model, parse)
      && ExtractStructuredData(a, kind, model, parse) == ExtractStructuredData(b, kind, model, parse)
      && AnalyzeSentiment(a, model) == AnalyzeSentiment(b, model)
    ensures Prefix(a, 8000) == Prefix(b, 8000) ==> SummarizeText(a, model) == SummarizeText(b, model)
    ensures Prefix(a, 12000) == Prefix(b, 12000) ==> AnswerQuestion(a, question, model) == AnswerQuestion(b, question, model)
    ensures Prefix(a, 2000) == Prefix(b, 2000) && Prefix(c, 2000) == Prefix(d, 2000) ==>
      CompareTexts(a, c, model) == CompareTexts(b, d, model)
  {
    if Prefix(a, 4000) == Prefix(b, 4000) {
      assert ClassifyText(a, model, parse) == ClassifyText(b, model, parse) by {
        assert ClassifyPromptFor(a) == ClassifyPromptFor(b);
      }
      assert ExtractStructuredData(a, kind, model, parse) == ExtractStructuredData(b, kind, model, parse) by {
        assert StructuredPromptFor(a, kind) == StructuredPromptFor(b, kind);
      }
      assert AnalyzeSentiment(a, model) == AnalyzeSentiment(b, model) by {
        assert SentimentPromptFor(a) == SentimentPromptFor(b);
      }
    }
    if Prefix(a, 8000) == Prefix(b, 8000) {
      assert SummaryPromptFor(a) == SummaryPromptFor(b);
    }
    if Prefix(a, 12000) == Prefix(b, 12000) {
      assert QuestionPromptFor(a, question) == QuestionPromptFor(b, question);
    }
    if Prefix(a, 2000) == Prefix(b, 2000) && Prefix(c, 2000) == Prefix(d, 2000) {
      assert ComparePromptFor(a, c) == ComparePromptFor(b, d);
    }
  }
}
