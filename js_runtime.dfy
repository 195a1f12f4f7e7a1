/**
 * The pieces of the JavaScript runtime the core's logic leans on, stated as
 * functions on `string` (a sequence of characters): the white-space class of
 * `\s` and `trim`, `substring(0, n)`, `parseInt`, `String(n)` for integers,
 * JSON values with their truthiness, property reads and string conversion,
 * and Node's `path.extname`.
 */
module JsRuntime {
  import opened Wrappers

  // ---------------------------------------------------------------------
  // White space and trimming
  // ---------------------------------------------------------------------

  /** The characters matched by `\s` and removed by `String.prototype.trim`
      (ECMAScript WhiteSpace and LineTerminator). */
  predicate IsWhitespace(c: char) {
    c == '\t' || c == '\n' || c == '\U{B}' || c == '\U{C}' || c == '\r' || c == ' '
    || c == '\U{A0}' || c == '\U{1680}' || ('\U{2000}' <= c <= '\U{200A}')
    || c == '\U{2028}' || c == '\U{2029}' || c == '\U{202F}' || c == '\U{205F}'
    || c == '\U{3000}' || c == '\U{FEFF}'
  }

  /** Drops the leading white space: the result is a suffix of `s` that does
      not start with white space; `TrimStartDropsWhitespace` says that all it
      dropped was white space. */
  function TrimStart(s: string): (r: string)
    ensures |r| <= |s| && r == s[|s| - |r|..]
    ensures r != [] ==> !IsWhitespace(r[0])
  {
    if |s| > 0 && IsWhitespace(s[0]) then TrimStart(s[1..]) else s
  }

  /** Everything `TrimStart` drops is white space, so its result starts at the
      first non-white-space character of `s`. */
  lemma {:induction false} TrimStartDropsWhitespace(s: string)
    ensures forall k :: 0 <= k < |s| - |TrimStart(s)| ==> IsWhitespace(s[k])
    decreases |s|
  {
    if |s| > 0 && IsWhitespace(s[0]) {
      TrimStartDropsWhitespace(s[1..]);
      assert forall k :: 1 <= k < |s| ==> s[k] == s[1..][k - 1];
    }
  }

  /** Drops the trailing white space: the result is the prefix of `s` that ends
      at its last non-white-space character. */
  function TrimEnd(s: string): (r: string)
    ensures |r| <= |s| && r == s[..|r|]
    ensures forall k :: |r| <= k < |s| ==> IsWhitespace(s[k])
    ensures r != [] ==> !IsWhitespace(r[|r| - 1])
  {
    if |s| > 0 && IsWhitespace(s[|s| - 1]) then TrimEnd(s[..|s| - 1]) else s
  }

  /** `s.trim()`: a contiguous piece of `s` with no white space at either end. */
  function Trim(s: string): (r: string)
    ensures |r| <= |s|
    ensures r != [] ==> !IsWhitespace(r[0]) && !IsWhitespace(r[|r| - 1])
    ensures r <= TrimStart(s)
    ensures forall k :: 0 <= k < |s| - |TrimStart(s)| ==> IsWhitespace(s[k])
    ensures forall k :: |s| - |TrimStart(s)| + |r| <= k < |s| ==> IsWhitespace(s[k])
  {
    TrimStartDropsWhitespace(s);
    TrimEndOfSuffix(s, |s| - |TrimStart(s)|);
    TrimEnd(TrimStart(s))
  }

  /** What `TrimEnd` drops from a suffix of `s` is white space of `s`. */
  lemma TrimEndOfSuffix(s: string, off: nat)
    requires off <= |s|
    ensures forall k :: off + |TrimEnd(s[off..])| <= k < |s| ==> IsWhitespace(s[k])
  {
    var t := s[off..];
    forall k | off + |TrimEnd(t)| <= k < |s|
      ensures IsWhitespace(s[k])
    {
      assert s[k] == t[k - off];
    }
  }

  /** Trimming a string that has no white space at its ends changes nothing. */
  lemma {:induction false} TrimOfTrimmed(s: string)
    requires s != [] ==> !IsWhitespace(s[0]) && !IsWhitespace(s[|s| - 1])
    ensures Trim(s) == s
  {
  }

  /** `trim` is idempotent. */
  lemma TrimIdempotent(s: string)
    ensures Trim(Trim(s)) == Trim(s)
  {
    TrimOfTrimmed(Trim(s));
  }

  /** Trimming white space off both sides of a string with non-white-space ends recovers it. */
  lemma {:induction false} TrimOfPadded(pad: string, d: string)
    requires forall k :: 0 <= k < |pad| ==> IsWhitespace(pad[k])
    requires d != [] && !IsWhitespace(d[0]) && !IsWhitespace(d[|d| - 1])
    ensures Trim(pad + d + pad) == d
  {
    var s := pad + d + pad;
    var t := TrimStart(s);
    assert t == d + pad by {
      assert s == pad + (d + pad);
      assert (d + pad)[0] == d[0];
      TrimStartOfPadded(pad, d + pad);
    }
    TrimEndOfPadded(d, pad);
  }

  /** Leading white space in front of a string that does not start with white space is dropped. */
  lemma {:induction false} TrimStartOfPadded(pad: string, rest: string)
    requires forall k :: 0 <= k < |pad| ==> IsWhitespace(pad[k])
    requires rest != [] ==> !IsWhitespace(rest[0])
    ensures TrimStart(pad + rest) == rest
  {
    if pad != [] {
      assert (pad + rest)[1..] == pad[1..] + rest;
      TrimStartOfPadded(pad[1..], rest);
    } else {
      assert pad + rest == rest;
    }
  }

  /** Trailing white space after a string that does not end with white space is dropped. */
  lemma {:induction false} TrimEndOfPadded(rest: string, pad: string)
    requires forall k :: 0 <= k < |pad| ==> IsWhitespace(pad[k])
    requires rest != [] ==> !IsWhitespace(rest[|rest| - 1])
    ensures TrimEnd(rest + pad) == rest
  {
    if pad != [] {
      assert (rest + pad)[..|rest + pad| - 1] == rest + pad[..|pad| - 1];
      TrimEndOfPadded(rest, pad[..|pad| - 1]);
    } else {
      assert rest + pad == rest;
    }
  }

  // ---------------------------------------------------------------------
  // substring(0, n)
  // ---------------------------------------------------------------------

  function Min(a: int, b: int): int { if a < b then a else b }

  /** `s.substring(0, n)`: the first `n` characters of `s`, or all of it when
      it is shorter. */
  function Prefix(s: string, n: nat): (r: string)
    ensures r <= s
    ensures |r| == Min(|s|, n)
  {
    if |s| <= n then s else s[..n]
  }

  /** Two texts with the same first `n` characters have the same prefix of length `n`,
      whatever follows. */
  lemma PrefixOfExtension(s: string, tail: string, n: nat)
    requires |s| >= n
    ensures Prefix(s + tail, n) == Prefix(s, n)
  {
    assert (s + tail)[..n] == s[..n];
  }

  // ---------------------------------------------------------------------
  // Digits, parseInt and String(n)
  // ---------------------------------------------------------------------

  /** The value of `c` as a digit in base 10 or 16, if it is one. */
  function DigitValue(c: char, hex: bool): (d: Option<nat>)
    ensures d.Some? ==> d.value < (if hex then 16 else 10)
  {
    if '0' <= c <= '9' then Some(c as nat - '0' as nat)
    else if hex && 'a' <= c <= 'f' then Some(c as nat - 'a' as nat + 10)
    else if hex && 'A' <= c <= 'F' then Some(c as nat - 'A' as nat + 10)
    else None
  }

  /** The length of the longest prefix of `s` made of digits. */
  function LeadingDigits(s: string, hex: bool): (n: nat)
    ensures n <= |s|
    ensures forall k :: 0 <= k < n ==> DigitValue(s[k], hex).Some?
    ensures n < |s| ==> DigitValue(s[n], hex).None?
  {
    if s == [] || DigitValue(s[0], hex).None? then 0 else 1 + LeadingDigits(s[1..], hex)
  }

  /** The number a string of digits denotes. */
  function DigitsValue(s: string, hex: bool): nat
    requires forall k :: 0 <= k < |s| ==> DigitValue(s[k], hex).Some?
  {
    if s == [] then 0
    else DigitsValue(s[..|s| - 1], hex) * (if hex then 16 else 10) + DigitValue(s[|s| - 1], hex).value
  }

  /** The value of the longest run of digits at the start of `v`, if there is one. */
  function LeadingNumber(v: string, hex: bool): (r: Option<nat>)
    ensures r.None? <==> v == [] || DigitValue(v[0], hex).None?
  {
    var n := LeadingDigits(v, hex);
    if n == 0 then None else Some(DigitsValue(v[..n], hex))
  }

  /** `parseInt(s)` (when `autoRadix`) or `parseInt(s, 10)`: skip leading white
      space, take an optional sign, then (only when `autoRadix`) an optional
      `0x`/`0X` prefix that switches to base 16, then the longest run of digits;
      no digit at all gives `NaN`, modelled as `None`. Characters after the
      digits are ignored. */
  function ParseInt(s: string, autoRadix: bool): (r: Option<int>)
  {
    var t := TrimStart(s);
    var negative := |t| > 0 && t[0] == '-';
    var u := Unsigned(t);
    SignedNumber(negative, u, autoRadix && IsHexPrefixed(u))
  }

  /** The part of `t` after an optional sign: what `parseInt` reads digits from. */
  function Unsigned(t: string): (u: string)
    ensures u == t || (t != [] && u == t[1..])
  {
    if |t| > 0 && (t[0] == '-' || t[0] == '+') then t[1..] else t
  }

  /** Whether `u` starts with `0x` or `0X`. */
  predicate IsHexPrefixed(u: string) {
    |u| >= 2 && u[0] == '0' && (u[1] == 'x' || u[1] == 'X')
  }

  /** The leading number of `u` (after its `0x` when `hex`), negated when `negative`. */
  function SignedNumber(negative: bool, u: string, hex: bool): (r: Option<int>)
    requires hex ==> |u| >= 2
  {
    match LeadingNumber(if hex then u[2..] else u, hex)
    case None => None
    case Some(magnitude) => Some(if negative then -(magnitude as int) else magnitude as int)
  }

  /** The decimal digits of `n`, most significant first. */
  function NatToDecimal(n: nat): (s: string)
    ensures |s| > 0
    ensures forall k :: 0 <= k < |s| ==> '0' <= s[k] <= '9'
    ensures DigitsValue(s, false) == n
  {
    var last := ['0' + (n % 10) as char];
    if n < 10 then last else NatToDecimal(n / 10) + last
  }

  /** `String(n)` for an integer `n`. */
  function IntToDecimal(n: int): (s: string)
    ensures |s| > 0
    ensures s[0] == '-' <==> n < 0
    ensures forall k :: 0 < k < |s| ==> '0' <= s[k] <= '9'
  {
    if n < 0 then "-" + NatToDecimal(-n) else NatToDecimal(n)
  }

  /** `parseInt(String(n), 10) === n`: printing an integer and parsing it back
      gives the integer, whatever follows the digits as long as it is not a digit. */
  lemma {:induction false} ParseIntOfDecimal(n: int, rest: string)
    requires rest != [] ==> DigitValue(rest[0], false).None?
    ensures ParseInt(IntToDecimal(n) + rest, false) == Some(n)
  {
    if n < 0 {
      ParseIntOfNegativeDecimal(n, rest);
    } else {
      ParseIntOfNaturalDecimal(n, rest);
    }
  }

  lemma ParseIntOfNegativeDecimal(n: int, rest: string)
    requires n < 0 && (rest != [] ==> DigitValue(rest[0], false).None?)
    ensures ParseInt(IntToDecimal(n) + rest, false) == Some(n)
  {
    var m: nat := -n;
    assert IntToDecimal(n) == "-" + NatToDecimal(m);
    assert ParseInt("-" + NatToDecimal(m) + rest, false) == Some(n) by {
      LeadingNumberOfDecimal(m, rest);
      ParseIntOfMinus(NatToDecimal(m), rest, m);
    }
  }

  lemma ParseIntOfMinus(d: string, rest: string, m: nat)
    requires d != [] && LeadingNumber(d + rest, false) == Some(m) && '0' <= (d + rest)[0] <= '9'
    ensures ParseInt("-" + d + rest, false) == Some(-(m as int))
  {
    assert "-" + d + rest == "-" + (d + rest);
    ParseIntOfSignedRun(d + rest, m);
  }

  lemma ParseIntOfNaturalDecimal(n: nat, rest: string)
    requires rest != [] ==> DigitValue(rest[0], false).None?
    ensures ParseInt(IntToDecimal(n) + rest, false) == Some(n)
  {
    LeadingNumberOfDecimal(n, rest);
    ParseIntOfRun(NatToDecimal(n) + rest, n);
  }

  /** The digits of `m` followed by a non-digit read back as `m`. */
  lemma LeadingNumberOfDecimal(m: nat, rest: string)
    requires rest != [] ==> DigitValue(rest[0], false).None?
    ensures LeadingNumber(NatToDecimal(m) + rest, false) == Some(m)
    ensures '0' <= (NatToDecimal(m) + rest)[0] <= '9'
  {
    var d := NatToDecimal(m);
    var v := d + rest;
    LeadingDigitsOfDigits(d, rest);
    assert v[..|d|] == d;
    assert v[0] == d[0];
  }

  /** `parseInt(s.trim(), 10)` of a printed integer with white space before it
      and anything after it that does not begin with a digit is the integer. */
  lemma ParseIntOfTrimmedDecimal(pre: string, n: int, rest: string)
    requires forall k :: 0 <= k < |pre| ==> IsWhitespace(pre[k])
    requires rest != [] ==> DigitValue(rest[0], false).None?
    ensures ParseInt(Trim(pre + IntToDecimal(n) + rest), false) == Some(n)
  {
    var d := IntToDecimal(n);
    var kept := TrimKeepsAfter(pre, d, rest);
    assert kept != [] ==> kept[0] == rest[0];
    ParseIntOfDecimal(n, kept);
  }

  /** Trimming white space, then `d`, then `rest` keeps `d` and a prefix of `rest`
      when `d` has no white space at its ends. */
  lemma TrimKeepsAfter(pre: string, d: string, rest: string) returns (kept: string)
    requires forall k :: 0 <= k < |pre| ==> IsWhitespace(pre[k])
    requires d != [] && !IsWhitespace(d[0]) && !IsWhitespace(d[|d| - 1])
    ensures kept <= rest && Trim(pre + d + rest) == d + kept
  {
    var s := pre + d + rest;
    assert TrimStart(s) == d + rest by {
      assert s == pre + (d + rest);
      assert (d + rest)[0] == d[0];
      TrimStartOfPadded(pre, d + rest);
    }
    TrimEndAfter(d, rest);
    kept := rest[..|TrimEnd(d + rest)| - |d|];
  }

  /** Trailing white space is dropped only after a part that does not end with it. */
  lemma TrimEndAfter(d: string, rest: string)
    requires d != [] && !IsWhitespace(d[|d| - 1])
    ensures |TrimEnd(d + rest)| >= |d|
    ensures TrimEnd(d + rest) == d + rest[..|TrimEnd(d + rest)| - |d|]
  {
    var t := TrimEnd(d + rest);
    assert |t| >= |d| by {
      assert (d + rest)[|d| - 1] == d[|d| - 1];
    }
    assert (d + rest)[..|t|] == d + rest[..|t| - |d|];
  }

  /** A printed integer never looks like a `0x` numeral, so `parseInt` reads it
      back the same with and without a radix. */
  lemma ParseIntAutoRadixOfDecimal(n: int)
    ensures ParseInt(IntToDecimal(n), true) == Some(n)
  {
    var s := IntToDecimal(n);
    ParseIntOfDecimal(n, "");
    assert s + "" == s;
    ParseIntRadixOfNumeral(s);
  }

  /** When no `0x` follows the sign, the radix detection has no effect. */
  lemma ParseIntWithoutHexPrefix(s: string)
    requires !IsHexPrefixed(Unsigned(TrimStart(s)))
    ensures ParseInt(s, true) == ParseInt(s, false)
  {
  }

  /** On an optionally negative run of decimal digits the radix detection never fires. */
  lemma ParseIntRadixOfNumeral(s: string)
    requires s != [] && (s[0] == '-' || '0' <= s[0] <= '9')
    requires forall k :: 0 < k < |s| ==> '0' <= s[k] <= '9'
    ensures ParseInt(s, true) == ParseInt(s, false)
  {
    assert TrimStart(s) == s by {
      TrimStartOfPadded("", s);
      assert "" + s == s;
    }
    assert !IsHexPrefixed(Unsigned(s)) by {
      var u := Unsigned(s);
      if |u| >= 2 {
        var j := if s[0] == '-' then 2 else 1;
        assert u[1] == s[j];
      }
    }
    ParseIntWithoutHexPrefix(s);
  }

  /** A string that starts with a decimal digit parses as its leading number. */
  lemma ParseIntOfRun(v: string, m: nat)
    requires v != [] && '0' <= v[0] <= '9'
    requires LeadingNumber(v, false) == Some(m)
    ensures ParseInt(v, false) == Some(m as int)
  {
    assert TrimStart(v) == v by { assert !IsWhitespace(v[0]); }
  }

  /** A minus sign before a string that starts with a decimal digit negates its leading number. */
  lemma ParseIntOfSignedRun(v: string, m: nat)
    requires v != [] && '0' <= v[0] <= '9'
    requires LeadingNumber(v, false) == Some(m)
    ensures ParseInt("-" + v, false) == Some(-(m as int))
  {
    var s := "-" + v;
    assert TrimStart(s) == s by { assert !IsWhitespace(s[0]); }
    assert s[1..] == v;
  }

  /** A run of decimal digits followed by a non-digit has exactly that many leading digits. */
  lemma {:induction false} LeadingDigitsOfDigits(d: string, rest: string)
    requires forall k :: 0 <= k < |d| ==> '0' <= d[k] <= '9'
    requires rest != [] ==> DigitValue(rest[0], false).None?
    ensures LeadingDigits(d + rest, false) == |d|
  {
    if d != [] {
      assert (d + rest)[1..] == d[1..] + rest;
      LeadingDigitsOfDigits(d[1..], rest);
    }
  }

  // ---------------------------------------------------------------------
  // JSON values as `JSON.parse` returns them
  // ---------------------------------------------------------------------

  /** A parsed JSON value. Numbers are integers here. */
  datatype Json =
    | JNull
    | JBool(b: bool)
    | JNum(n: int)
    | JStr(s: string)
    | JArr(items: seq<Json>)
    | JObj(fields: map<string, Json>)

  /** JavaScript truthiness: `null`, `false`, `0` and `""` are falsy; every other
      value, an empty object or array included, is truthy. */
  predicate Truthy(j: Json) {
    match j
    case JNull => false
    case JBool(b) => b
    case JNum(n) => n != 0
    case JStr(s) => s != ""
    case _ => true
  }

  /** The value of a property read `x.key`: absent (`undefined`) or a JSON value. */
  datatype Prop = Undefined | Defined(value: Json)

  /** `Undefined` is falsy; a defined value is as truthy as the value. */
  predicate PropTruthy(p: Prop) {
    p.Defined? && Truthy(p.value)
  }

  /** The message of the TypeError that reading `key` on `null` throws. */
  function NullReadMessage(key: string): string {
    "Cannot read properties of null (reading '" + key + "')"
  }

  /** `x.key` on a parsed JSON value: it throws on `null`, reads the field of an
      object, and is `undefined` on every other value (the keys the core reads
      are none of the built-in properties of strings, numbers or arrays). */
  function GetProp(j: Json, key: string): (r: Outcome<Prop>)
    ensures r.Err? <==> j.JNull?
    ensures r.Err? ==> r.message == NullReadMessage(key)
    ensures r == Ok(Defined(JNull)) ==> j.JObj? && key in j.fields
    ensures r.Ok? && r.value.Defined? ==> j.JObj? && key in j.fields && j.fields[key] == r.value.value
    ensures j.JObj? && key in j.fields ==> r == Ok(Defined(j.fields[key]))
    ensures !j.JNull? && !(j.JObj? && key in j.fields) ==> r == Ok(Undefined)
  {
    match j
    case JNull => Err(NullReadMessage(key))
    case JObj(fields) => Ok(if key in fields then Defined(fields[key]) else Undefined)
    case _ => Ok(Undefined)
  }

  /** `items.join(",")` for strings already converted. */
  function JoinWithComma(parts: seq<string>): string {
    if parts == [] then "" else if |parts| == 1 then parts[0] else parts[0] + "," + JoinWithComma(parts[1..])
  }

  /** `String(x)`, which is also what a template literal `${x}` inserts: arrays
      are joined with commas (a `null` element becomes empty), objects print as
      `[object Object]`. */
  function JsToString(j: Json): (s: string)
    ensures j.JStr? ==> s == j.s
    ensures j.JNum? ==> s == IntToDecimal(j.n)
  {
    match j
    case JNull => "null"
    case JBool(b) => if b then "true" else "false"
    case JNum(n) => IntToDecimal(n)
    case JStr(s) => s
    case JArr(items) =>
      JoinWithComma(seq(|items|, i requires 0 <= i < |items| => if items[i].JNull? then "" else JsToString(items[i])))
    case JObj(_) => "[object Object]"
  }

  // ---------------------------------------------------------------------
  // path.extname
  // ---------------------------------------------------------------------

  /** `path` without the slashes at its end. */
  function DropTrailingSlashes(path: string): (r: string)
    ensures r <= path
    ensures r != [] ==> r[|r| - 1] != '/'
  {
    if |path| > 0 && path[|path| - 1] == '/' then DropTrailingSlashes(path[..|path| - 1]) else path
  }

  /** The part of `path` after its last slash. */
  function LastSegment(path: string): (r: string)
    ensures |r| <= |path| && r == path[|path| - |r|..]
    ensures forall k :: 0 <= k < |r| ==> r[k] != '/'
  {
    if path == [] then []
    else if path[|path| - 1] == '/' then []
    else LastSegment(path[..|path| - 1]) + [path[|path| - 1]]
  }

  /** The position of the last `c` in `s`, or -1. */
  function LastIndexOf(s: string, c: char): (k: int)
    ensures -1 <= k < |s|
    ensures k >= 0 ==> s[k] == c
    ensures forall j :: k < j < |s| ==> s[j] != c
  {
    if s == [] then -1
    else if s[|s| - 1] == c then |s| - 1
    else LastIndexOf(s[..|s| - 1], c)
  }

  /** Node's `path.extname` (POSIX): from the last dot of the last path segment
      (trailing slashes ignored) to its end; empty when that segment has no dot,
      when its only dot is its first character, and for the segment `..`. */
  function Extname(path: string): (ext: string)
    ensures ext != [] ==> ext[0] == '.'
    ensures forall k :: 0 < k < |ext| ==> ext[k] != '.' && ext[k] != '/'
  {
    var segment := LastSegment(DropTrailingSlashes(path));
    var dot := LastIndexOf(segment, '.');
    if dot <= 0 || segment == ".." then "" else segment[dot..]
  }

  /** `s` holds no `c`. */
  predicate Lacks(s: string, c: char) {
    forall k :: 0 <= k < |s| ==> s[k] != c
  }

  /** A name whose last segment is a non-empty stem, a dot and an extension
      with no dot or slash has exactly that extension, whatever directories
      precede it. */
  lemma ExtnameOfDotted(stem: string, e: string)
    requires stem != [] && stem[|stem| - 1] != '/'
    requires e != [] && Lacks(e, '.') && Lacks(e, '/')
    ensures Extname(stem + "." + e) == "." + e
  {
    var head := LastSegment(stem);
    var segment := head + "." + e;
    assert segment[|head|..] == "." + e by {
      assert segment == head + ("." + e);
    }
    assert Extname(stem + "." + e) == segment[|head|..] by {
      SegmentOfDotted(stem, e);
      DotOfSegment(head, e);
      ExtnameOfSegment(stem + "." + e, segment, |head|);
    }
  }

  /** The last segment of `stem.e` is the stem's last segment, which is not empty, then `.e`. */
  lemma SegmentOfDotted(stem: string, e: string)
    requires stem != [] && stem[|stem| - 1] != '/'
    requires e != [] && Lacks(e, '/')
    ensures LastSegment(stem) != []
    ensures LastSegment(DropTrailingSlashes(stem + "." + e)) == LastSegment(stem) + "." + e
  {
    LastSegmentNonEmpty(stem);
    var t := "." + e;
    DotThenLacks(e, '/');
    SegmentOfTail(stem, t);
    assert stem + "." + e == stem + t;
    assert LastSegment(stem) + t == LastSegment(stem) + "." + e;
  }

  /** A path that does not end with a slash has a non-empty last segment. */
  lemma LastSegmentNonEmpty(p: string)
    requires p != [] && p[|p| - 1] != '/'
    ensures LastSegment(p) != []
  {
    assert LastSegment(p) == LastSegment(p[..|p| - 1]) + [p[|p| - 1]];
  }

  /** A dot in front of a string without `c` adds no `c` unless `c` is the dot. */
  lemma DotThenLacks(e: string, c: char)
    requires c != '.' && Lacks(e, c)
    ensures Lacks("." + e, c)
  {
    var t := "." + e;
    assert forall k :: 1 <= k < |t| ==> t[k] == e[k - 1];
  }

  /** A path ending in characters other than a slash keeps them in its last segment. */
  lemma SegmentOfTail(p: string, t: string)
    requires t != [] && Lacks(t, '/')
    ensures LastSegment(DropTrailingSlashes(p + t)) == LastSegment(p) + t
  {
    assert DropTrailingSlashes(p + t) == p + t by {
      assert (p + t)[|p + t| - 1] == t[|t| - 1];
    }
    LastSegmentOfTail(p, t);
  }

  /** In `head.e`, with `e` free of dots, the last dot is the one after `head`. */
  lemma DotOfSegment(head: string, e: string)
    requires e != [] && Lacks(e, '.')
    ensures LastIndexOf(head + "." + e, '.') == |head|
    ensures head + "." + e != ".."
  {
    var q := head + ".";
    assert head + "." + e == q + e;
    LastIndexAfterTail(q, e, '.');
    assert (q + e)[|q + e| - 1] == e[|e| - 1];
  }

  /** `path.extname` once the last segment and its last dot are known. */
  lemma ExtnameOfSegment(path: string, segment: string, dot: int)
    requires LastSegment(DropTrailingSlashes(path)) == segment
    requires LastIndexOf(segment, '.') == dot && dot > 0 && segment != ".."
    ensures Extname(path) == segment[dot..]
  {
  }

  /** Characters other than a slash appended to a path extend its last segment. */
  lemma {:induction false} LastSegmentOfTail(p: string, t: string)
    requires Lacks(t, '/')
    ensures LastSegment(p + t) == LastSegment(p) + t
    decreases |t|
  {
    if t == [] {
      assert p + t == p;
    } else {
      var u := t[..|t| - 1];
      var last := t[|t| - 1];
      assert LastSegment(p + t) == LastSegment(p + u) + [last] by {
        assert (p + t)[..|p + t| - 1] == p + u;
      }
      LastSegmentOfTail(p, u);
      assert LastSegment(p) + u + [last] == LastSegment(p) + t by {
        assert u + [last] == t;
      }
    }
  }

  /** When `q` ends with `c` and `t` holds no `c`, the last `c` of `q + t` is the end of `q`. */
  lemma {:induction false} LastIndexAfterTail(q: string, t: string, c: char)
    requires q != [] && q[|q| - 1] == c
    requires Lacks(t, c)
    ensures LastIndexOf(q + t, c) == |q| - 1
    decreases |t|
  {
    if t == [] {
      assert q + t == q;
    } else {
      var u := t[..|t| - 1];
      assert (q + t)[..|q + t| - 1] == q + u;
      LastIndexAfterTail(q, u, c);
    }
  }

  // ---------------------------------------------------------------------
  // String tests
  // ---------------------------------------------------------------------

  /** `s.startsWith(p)`. */
  predicate StartsWith(s: string, p: string) {
    |p| <= |s| && s[..|p|] == p
  }

  /** `s.includes(sub)`. */
  predicate Includes(s: string, sub: string)
    decreases |s|
  {
    StartsWith(s, sub) || (|s| > 0 && Includes(s[1..], sub))
  }
}
