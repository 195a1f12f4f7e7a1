/**
 * The pure policy of the document controller: the owner access check, the
 * pagination arithmetic of the listing, the extractor chosen by media type,
 * the rename template and `sanitizeFilename`, and the static routing table.
 */
module ControllerPolicy {
  import opened Wrappers
  import opened JsRuntime
  import opened DocumentModel

  // ---------------------------------------------------------------------
  // checkDocAccess
  // ---------------------------------------------------------------------

  /** The outcome of the access check: the record, or the status code and
      message of the error it throws. */
  datatype Access = Granted(doc: Document) | Denied(code: int, message: string)

  /** `checkDocAccess`: 404 when the record does not exist; a `TypeError` (no
      status code, so 500) when its owner no longer exists and `populate` leaves
      `null`; 403 when the owner is someone else; otherwise the stored record. */
  function CheckDocAccess(docs: map<DocId, Document>, users: set<UserId>, id: DocId, user: UserId): (r: Access)
    ensures r.Granted? <==> id in docs && docs[id].owner in users && docs[id].owner == user
    ensures r.Granted? ==> r.doc == docs[id]
    ensures r.Denied? && r.code == 404 <==> id !in docs
    ensures r.Denied? && r.code == 403 <==> id in docs && docs[id].owner in users && docs[id].owner != user
    ensures r.Denied? ==> r.code in {403, 404, 500}
  {
    if id !in docs then Denied(404, "Document not found")
    else if docs[id].owner !in users then Denied(500, NullReadMessage("_id"))
    else if docs[id].owner != user then Denied(403, "User not authorized")
    else Granted(docs[id])
  }

  // ---------------------------------------------------------------------
  // Pagination in getDocuments
  // ---------------------------------------------------------------------

  /** `parseInt(raw) || fallback`, with an absent query parameter read as `undefined`
      (which parses to `NaN`): `NaN` and 0 both give the fallback. */
  function IntParamOr(raw: Option<string>, fallback: int): (n: int)
    ensures fallback != 0 ==> n != 0
    ensures raw.None? ==> n == fallback
    ensures raw.Some? && ParseInt(raw.value, true).Some? && ParseInt(raw.value, true).value != 0
      ==> n == ParseInt(raw.value, true).value
  {
    match raw
    case None => fallback
    case Some(s) =>
      match ParseInt(s, true)
      case None => fallback
      case Some(v) => if v == 0 then fallback else v
  }

  /** `Math.ceil(total / limit)` for a document count and a non-zero limit. */
  function CeilDiv(total: nat, limit: int): (pages: int)
    requires limit != 0
    ensures limit > 0 ==> Holds(pages, limit, total)
    ensures limit < 0 ==> pages <= 0 && pages * limit <= total < (pages - 1) * limit
  {
    if limit > 0 then
      CeilOfPositive(total, limit);
      (total + limit - 1) / limit
    else
      CeilOfNegative(total, -limit);
      -(total / -limit)
  }

  lemma CeilOfPositive(total: nat, limit: int)
    requires limit > 0
    ensures Holds((total + limit - 1) / limit, limit, total)
  {
    var q := (total + limit - 1) / limit;
    DivisionBounds(total + limit - 1, limit);
    assert (q - 1) * limit == q * limit - limit;
  }

  lemma CeilOfNegative(total: nat, m: int)
    requires m > 0
    ensures var p := -(total / m); p <= 0 && p * -m <= total < (p - 1) * -m
  {
    var q := total / m;
    DivisionBounds(total, m);
    assert -q * -m == q * m;
    assert (-q - 1) * -m == (q + 1) * m;
  }

  /** Euclidean division brackets its dividend. */
  lemma DivisionBounds(a: int, b: int)
    requires b > 0
    ensures (a / b) * b <= a < (a / b + 1) * b
  {
  }

  /** `pages` pages of `limit` documents hold `total` documents, and one page
      fewer would not. */
  predicate Holds(pages: int, limit: int, total: nat) {
    pages >= 0 && (pages - 1) * limit < total <= pages * limit
  }

  /** The numbers the listing reports and queries with. */
  datatype PageWindow = PageWindow(page: int, limit: int, skip: int, totalPages: int)

  /** The window of the listing for a page number and a non-zero limit: `skip`
      counts the documents on the pages before, and `totalPages` is the least
      number of `limit`-sized pages that hold every matching document. */
  function Window(page: int, limit: int, total: nat): (r: PageWindow)
    requires limit != 0
    ensures r.page == page && r.limit == limit
    ensures r.skip == (page - 1) * limit
    ensures limit > 0 ==> Holds(r.totalPages, limit, total)
    ensures limit < 0 ==> r.totalPages <= 0
  {
    PageWindow(page, limit, (page - 1) * limit, CeilDiv(total, limit))
  }

  /** The pagination arithmetic of `getDocuments`: page and limit default to 1 and
      10 and are never 0, and the window is computed from them. */
  function Paginate(rawPage: Option<string>, rawLimit: Option<string>, total: nat): (r: PageWindow)
    ensures r.page == IntParamOr(rawPage, 1) && r.page != 0
    ensures r.limit == IntParamOr(rawLimit, 10) && r.limit != 0
    ensures r.skip == (r.page - 1) * r.limit
    ensures r.limit > 0 ==> Holds(r.totalPages, r.limit, total)
    ensures r.limit < 0 ==> r.totalPages <= 0
  {
    Window(IntParamOr(rawPage, 1), IntParamOr(rawLimit, 10), total)
  }

  /** With the default limit the document at position `k` of the listing is on
      the page `k / 10 + 1`, which lies between 1 and `totalPages`. */
  lemma {:induction false} EveryDocumentHasAPage(total: nat, k: nat)
    requires k < total
    ensures var w := Paginate(None, None, total);
      && w.limit == 10
      && 1 <= k / 10 + 1 <= w.totalPages
      && Paginate(Some(IntToDecimal(k / 10 + 1)), None, total).skip <= k < Paginate(Some(IntToDecimal(k / 10 + 1)), None, total).skip + 10
  {
    var w := Paginate(None, None, total);
    var p := k / 10 + 1;
    DivisionBounds(k, 10);
    assert p * 10 > k;
    assert (w.totalPages - 1) * 10 < total <= w.totalPages * 10;
    assert p <= w.totalPages;
    ParseIntAutoRadixOfDecimal(p);
    assert Paginate(Some(IntToDecimal(p)), None, total).page == p;
  }

  // ---------------------------------------------------------------------
  // The extractor chosen by media type
  // ---------------------------------------------------------------------

  /** The four text extractors: OCR for images, the PDF parser, the raw-text reader
      for Word documents, and a plain UTF-8 file read for everything else. */
  datatype Extractor = ImageOcr | PdfParser | WordRawText | PlainTextFile

  /** The dispatch of `processExtraction`, tried in order: an `image/` prefix, the
      exact PDF type, a type mentioning `wordprocessingml.document`, anything else. */
  function ExtractorFor(fileType: string): (e: Extractor)
    ensures e == ImageOcr <==> StartsWith(fileType, "image/")
    ensures e == PdfParser <==> fileType == "application/pdf"
    ensures e == WordRawText <==>
      !StartsWith(fileType, "image/") && fileType != "application/pdf" && Includes(fileType, "wordprocessingml.document")
    ensures e == PlainTextFile <==>
      !StartsWith(fileType, "image/") && fileType != "application/pdf" && !Includes(fileType, "wordprocessingml.document")
  {
    assert !StartsWith("application/pdf", "image/") by {
      assert "application/pdf"[..6] != "image/" by { assert "application/pdf"[0] == 'a'; }
    }
    if StartsWith(fileType, "image/") then ImageOcr
    else if fileType == "application/pdf" then PdfParser
    else if Includes(fileType, "wordprocessingml.document") then WordRawText
    else PlainTextFile
  }

  // ---------------------------------------------------------------------
  // sanitizeFilename
  // ---------------------------------------------------------------------

  /** The characters `sanitizeFilename` deletes. */
  predicate IsReserved(c: char) {
    c == '/' || c == '\\' || c == '?' || c == '%' || c == '*' || c == ':' || c == '|' || c == '"' || c == '<' || c == '>'
  }

  /** The first replacement: every reserved character is deleted, the others kept in order. */
  function RemoveReserved(s: string): (r: string)
    ensures |r| <= |s|
    ensures forall c :: c in r ==> c in s && !IsReserved(c)
    ensures (forall k :: 0 <= k < |s| ==> !IsReserved(s[k])) ==> r == s
    decreases |s|
  {
    if s == [] then []
    else (if IsReserved(s[0]) then [] else [s[0]]) + RemoveReserved(s[1..])
  }

  /** Deleting characters works piece by piece: the text on either side of a cut
      is cleaned independently. */
  lemma {:induction false} RemoveReservedSplits(a: string, b: string)
    ensures RemoveReserved(a + b) == RemoveReserved(a) + RemoveReserved(b)
    decreases |a|
  {
    if a != [] {
      assert (a + b)[0] == a[0];
      assert (a + b)[1..] == a[1..] + b;
      RemoveReservedSplits(a[1..], b);
      Associative(if IsReserved(a[0]) then [] else [a[0]], RemoveReserved(a[1..]), RemoveReserved(b));
    } else {
      assert a + b == b;
    }
  }

  /** The second replacement: every maximal run of white space becomes one `_`.
      That it leaves no white space, adds nothing but `_` and keeps a text
      without white space as it is, the three lemmas below state. */
  function CollapseWhitespace(s: string): (r: string)
    ensures |r| <= |s|
    decreases |s|
  {
    if s == [] then []
    else if IsWhitespace(s[0]) then "_" + CollapseWhitespace(TrimStart(s[1..]))
    else [s[0]] + CollapseWhitespace(s[1..])
  }

  /** The text `CollapseWhitespace` goes on with after the first character of `s`. */
  function CollapseRest(s: string): (rest: string)
    requires s != []
    ensures |rest| < |s| && rest == s[|s| - |rest|..]
  {
    if IsWhitespace(s[0]) then TrimStart(s[1..]) else s[1..]
  }

  /** The first character of `CollapseWhitespace(s)`. */
  function CollapseHead(s: string): (c: char)
    requires s != []
    ensures !IsWhitespace(c)
    ensures c == '_' || c == s[0]
  {
    if IsWhitespace(s[0]) then '_' else s[0]
  }

  lemma CollapseUnfold(s: string)
    requires s != []
    ensures CollapseWhitespace(s) == [CollapseHead(s)] + CollapseWhitespace(CollapseRest(s))
  {
  }

  lemma {:induction false} CollapseWhitespaceLeavesNone(s: string)
    ensures forall k :: 0 <= k < |CollapseWhitespace(s)| ==> !IsWhitespace(CollapseWhitespace(s)[k])
    decreases |s|
  {
    if s != [] {
      var t := CollapseWhitespace(CollapseRest(s));
      CollapseUnfold(s);
      CollapseWhitespaceLeavesNone(CollapseRest(s));
      assert forall k :: 1 <= k <= |t| ==> ([CollapseHead(s)] + t)[k] == t[k - 1];
    }
  }

  lemma {:induction false} CollapseWhitespaceAddsOnlyUnderscores(s: string)
    ensures forall c :: c in CollapseWhitespace(s) ==> c == '_' || c in s
    decreases |s|
  {
    if s != [] {
      var rest := CollapseRest(s);
      CollapseUnfold(s);
      CollapseWhitespaceAddsOnlyUnderscores(rest);
      assert forall c :: c in rest ==> c in s;
    }
  }

  lemma {:induction false} CollapseWhitespaceOfPlain(s: string)
    requires forall k :: 0 <= k < |s| ==> !IsWhitespace(s[k])
    ensures CollapseWhitespace(s) == s
    decreases |s|
  {
    if s != [] {
      assert s[0] == s[..1][0];
      CollapseWhitespaceOfPlain(s[1..]);
      assert s == [s[0]] + s[1..];
    }
  }

  /** A white-space run at the start followed by text that does not start with
      white space becomes one underscore. */
  lemma CollapseLeadingRun(ws: string, b: string)
    requires ws != [] && forall k :: 0 <= k < |ws| ==> IsWhitespace(ws[k])
    requires b != [] ==> !IsWhitespace(b[0])
    ensures CollapseWhitespace(ws + b) == "_" + CollapseWhitespace(b)
  {
    var s := ws + b;
    assert s[0] == ws[0];
    assert s[1..] == ws[1..] + b;
    assert forall k :: 0 <= k < |ws[1..]| ==> IsWhitespace(ws[1..][k]) by {
      forall k | 0 <= k < |ws[1..]| ensures IsWhitespace(ws[1..][k]) {
        assert ws[1..][k] == ws[k + 1];
      }
    }
    TrimStartOfPadded(ws[1..], b);
    assert CollapseWhitespace(s) == "_" + CollapseWhitespace(TrimStart(s[1..]));
  }

  /** A non-white-space character in front is kept as it is. */
  lemma CollapsePlainChar(c: char, s: string)
    requires !IsWhitespace(c)
    ensures CollapseWhitespace([c] + s) == [c] + CollapseWhitespace(s)
  {
    assert ([c] + s)[0] == c;
    assert ([c] + s)[1..] == s;
  }

  /** Text without white space in front is kept as it is. */
  lemma {:induction false} CollapsePlainPrefix(a: string, s: string)
    requires forall k :: 0 <= k < |a| ==> !IsWhitespace(a[k])
    ensures CollapseWhitespace(a + s) == a + CollapseWhitespace(s)
    decreases |a|
  {
    if a == [] {
      assert a + s == s;
    } else {
      FrontSplit(a, s);
      CollapsePlainChar(a[0], a[1..] + s);
      CollapsePlainPrefix(a[1..], s);
      FrontSplit(a, CollapseWhitespace(s));
    }
  }

  /** A non-empty string is its first character in front of the rest. */
  lemma FrontSplit(a: string, m: string)
    requires a != []
    ensures [a[0]] + (a[1..] + m) == a + m
  {
    assert a == [a[0]] + a[1..];
  }

  /** A white-space run between plain text and text that does not start with
      white space is replaced by exactly one underscore. */
  lemma CollapseWhitespaceRun(a: string, ws: string, b: string)
    requires forall k :: 0 <= k < |a| ==> !IsWhitespace(a[k])
    requires ws != [] && forall k :: 0 <= k < |ws| ==> IsWhitespace(ws[k])
    requires b != [] ==> !IsWhitespace(b[0])
    ensures CollapseWhitespace(a + ws + b) == a + "_" + CollapseWhitespace(b)
  {
    Associative(a, ws, b);
    CollapsePlainPrefix(a, ws + b);
    CollapseLeadingRun(ws, b);
    Associative(a, "_", CollapseWhitespace(b));
  }

  lemma Associative<T>(a: seq<T>, b: seq<T>, c: seq<T>)
    ensures a + b + c == a + (b + c)
  {
  }

  /** `sanitizeFilename`: reserved characters deleted, then white-space runs collapsed. */
  function SanitizeFilename(name: string): (r: string)
    ensures forall k :: 0 <= k < |r| ==> !IsReserved(r[k]) && !IsWhitespace(r[k])
    ensures |r| <= |name|
  {
    var cleaned := RemoveReserved(name);
    CollapseWhitespaceLeavesNone(cleaned);
    CollapseWhitespaceAddsOnlyUnderscores(cleaned);
    var r := CollapseWhitespace(cleaned);
    assert forall k :: 0 <= k < |r| ==> !IsReserved(r[k]) by {
      forall k | 0 <= k < |r| ensures !IsReserved(r[k]) {
        assert r[k] in r;
      }
    }
    r
  }

  /** A sanitized name is left as it is by a second sanitizing. */
  lemma SanitizeFilenameIdempotent(name: string)
    ensures SanitizeFilename(SanitizeFilename(name)) == SanitizeFilename(name)
  {
    CollapseWhitespaceOfPlain(SanitizeFilename(name));
  }

  // ---------------------------------------------------------------------
  // The rename template
  // ---------------------------------------------------------------------

  /** Whether `data` is an object whose fields `key1` and `key2` are both truthy. */
  predicate HasTruthyFields(data: Json, key1: string, key2: string) {
    data.JObj? && key1 in data.fields && key2 in data.fields
    && Truthy(data.fields[key1]) && Truthy(data.fields[key2])
  }

  /** One arm of the rename template: `data.key1 && data.key2` decides between
      `<prefix><key1>_<key2><ext>` and the fallback; reading `key1` on `null` throws. */
  function NameFromFields(data: Json, prefix: string, key1: string, key2: string, ext: string, fallback: string): (r: Outcome<string>)
    ensures r.Err? <==> data.JNull?
    ensures r.Err? ==> r.message == NullReadMessage(key1)
    ensures HasTruthyFields(data, key1, key2) ==>
      r == Ok(prefix + JsToString(data.fields[key1]) + "_" + JsToString(data.fields[key2]) + ext)
    ensures !data.JNull? && !HasTruthyFields(data, key1, key2) ==> r == Ok(fallback)
  {
    match GetProp(data, key1)
    case Err(m) => Err(m)
    case Ok(first) =>
      if !PropTruthy(first) then Ok(fallback)
      else
        match GetProp(data, key2)
        case Err(m) => Err(m)
        case Ok(second) =>
          if PropTruthy(second) then Ok(prefix + JsToString(first.value) + "_" + JsToString(second.value) + ext)
          else Ok(fallback)
  }

  /** The name `processFileRenaming` proposes before sanitizing: an Invoice with a
      vendor and an invoice date, or a Contract with a first party and an effective
      date, is named after them with the original extension; every other record
      keeps its name. Only a `null` structured-data value of an Invoice or a
      Contract makes the template throw. */
  function ProposedName(d: Document): (r: Outcome<string>)
    ensures r.Err? <==> (d.classification == "Invoice" || d.classification == "Contract") && d.structuredData.JNull?
    ensures d.classification == "Invoice" && HasTruthyFields(d.structuredData, "vendorName", "invoiceDate") ==>
      r == Ok("Invoice_" + JsToString(d.structuredData.fields["vendorName"]) + "_"
              + JsToString(d.structuredData.fields["invoiceDate"]) + Extname(d.originalName))
    ensures d.classification == "Contract" && HasTruthyFields(d.structuredData, "partyA", "effectiveDate") ==>
      r == Ok("Contract_" + JsToString(d.structuredData.fields["partyA"]) + "_"
              + JsToString(d.structuredData.fields["effectiveDate"]) + Extname(d.originalName))
    ensures d.classification != "Invoice" && d.classification != "Contract" ==> r == Ok(d.originalName)
  {
    var ext := Extname(d.originalName);
    if d.classification == "Invoice" then
      NameFromFields(d.structuredData, "Invoice_", "vendorName", "invoiceDate", ext, d.originalName)
    else if d.classification == "Contract" then
      NameFromFields(d.structuredData, "Contract_", "partyA", "effectiveDate", ext, d.originalName)
    else Ok(d.originalName)
  }

  /** A proposed name other than the original one ends with the original extension. */
  lemma ProposedNameKeepsExtension(d: Document)
    requires ProposedName(d).Ok? && ProposedName(d).value != d.originalName
    ensures Extname(d.originalName) <= ProposedName(d).value[|ProposedName(d).value| - |Extname(d.originalName)|..]
    ensures |Extname(d.originalName)| <= |ProposedName(d).value|
  {
  }

  // ---------------------------------------------------------------------
  // Routing
  // ---------------------------------------------------------------------

  const Accounting := "Sent to Accounting Dept."
  const Legal := "Sent to Legal Dept."
  const HumanResources := "Sent to HR Dept."
  const GeneralArchive := "General Archive"

  /** The static routing table of `processRouting`: Invoice, Contract and Resume go
      to their departments; every other label, and no other, goes to the archive. */
  function RouteDestination(classification: string): (dest: string)
    ensures dest in {Accounting, Legal, HumanResources, GeneralArchive}
    ensures dest == Accounting <==> classification == "Invoice"
    ensures dest == Legal <==> classification == "Contract"
    ensures dest == HumanResources <==> classification == "Resume"
    ensures dest == GeneralArchive <==> classification !in {"Invoice", "Contract", "Resume"}
  {
    if classification == "Resume" then HumanResources
    else if classification == "Contract" then Legal
    else if classification == "Invoice" then Accounting
    else GeneralArchive
  }
}
