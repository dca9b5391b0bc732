/**
 * The helpers every API route shares: reading the listing's query
 * parameters with their defaults, validating a JSON request body against a
 * schema (turning schema issues into a thrown 400 response), and the
 * wrapper that logs an error before passing it on.
 */
module ApiHandler {
  import opened Common
  import opened ApiResponse
  import opened Validations

  // ---------------------------------------------------------------------
  // Number.parseInt(s, 10)
  // ---------------------------------------------------------------------

  /**
   * The characters `parseInt` skips before the number: the ECMAScript
   * white space (tab, vertical tab, form feed, BOM and the space
   * separators) and the line terminators.
   */
  predicate IsJsSpace(c: char) {
    c == '\t' || c == '\n' || c == '\U{B}' || c == '\U{C}' || c == '\r' ||
    c == ' ' || c == '\U{A0}' || c == '\U{1680}' || ('\U{2000}' <= c <= '\U{200A}') ||
    c == '\U{2028}' || c == '\U{2029}' || c == '\U{202F}' || c == '\U{205F}' ||
    c == '\U{3000}' || c == '\U{FEFF}'
  }

  /** The string without its leading white space. */
  function TrimStart(s: string): (r: string)
    ensures |r| <= |s| && r == s[|s| - |r|..]
    ensures r == [] || !IsJsSpace(r[0])
    ensures forall i :: 0 <= i < |s| - |r| ==> IsJsSpace(s[i])
  {
    if s != [] && IsJsSpace(s[0]) then TrimStart(s[1..]) else s
  }

  /** The longest prefix made of decimal digits. */
  function DigitPrefix(s: string): (d: string)
    ensures |d| <= |s| && d == s[..|d|]
    ensures forall i :: 0 <= i < |d| ==> IsDigit(d[i])
    ensures |d| == |s| || !IsDigit(s[|d|])
  {
    if s != [] && IsDigit(s[0]) then [s[0]] + DigitPrefix(s[1..]) else []
  }

  /**
   * `Number.parseInt(s, 10)`: leading white space, an optional sign, then
   * as many decimal digits as there are; anything after them is ignored.
   * `None` is `NaN`, the result when no digit follows the sign.
   */
  function ParseInt10(s: string): Option<int> {
    ReadSigned(TrimStart(s))
  }

  /** The number at the start of a string that has no leading white space. */
  function ReadSigned(t: string): Option<int> {
    if |t| > 0 && t[0] == '-' then
      match ReadDigits(t[1..])
      case None => None
      case Some(v) => Some(0 - v)
    else if |t| > 0 && t[0] == '+' then ReadDigits(t[1..])
    else ReadDigits(t)
  }

  /** The value of the digits at the start of `u`, or `None` when it does not start with one. */
  function ReadDigits(u: string): Option<int> {
    var d := DigitPrefix(u);
    if d == [] then None else Some(DigitsValue(d))
  }

  /** Digits followed by a string that does not start with a digit form the whole digit prefix. */
  lemma {:induction false} DigitPrefixOfDigits(d: string, rest: string)
    requires forall i :: 0 <= i < |d| ==> IsDigit(d[i])
    requires rest == [] || !IsDigit(rest[0])
    ensures DigitPrefix(d + rest) == d
  {
    if d != [] {
      assert (d + rest)[1..] == d[1..] + rest;
      DigitPrefixOfDigits(d[1..], rest);
    }
  }

  /** A decimal rendering followed by a non-digit is read back as its number. */
  lemma ReadDecimal(n: nat, rest: string)
    requires rest == [] || !IsDigit(rest[0])
    ensures ReadDigits(Decimal(n) + rest) == Some(n)
  {
    DecimalValue(n);
    DigitPrefixOfDigits(Decimal(n), rest);
  }

  /** A string that starts with a digit or a sign has no white space to trim. */
  lemma TrimStartNone(s: string)
    requires s != [] && (IsDigit(s[0]) || s[0] == '-' || s[0] == '+')
    ensures TrimStart(s) == s
  {
  }

  /**
   * `parseInt` reads back the decimal rendering of a number, with or
   * without a sign, and ignores whatever follows the digits.
   */
  lemma ParseDecimal(n: nat, rest: string)
    requires rest == [] || !IsDigit(rest[0])
    ensures ParseInt10(Decimal(n) + rest) == Some(n)
    ensures ParseInt10("-" + Decimal(n) + rest) == Some(-(n as int))
    ensures ParseInt10("+" + Decimal(n) + rest) == Some(n)
  {
    var x := Decimal(n) + rest;
    assert x[0] == Decimal(n)[0];
    ReadDecimal(n, rest);
    ParseUnsigned(x);
    ParseSignedDecimal("-", n, rest);
    ParseSignedDecimal("+", n, rest);
  }

  lemma ParseSignedDecimal(sign: string, n: nat, rest: string)
    requires sign == "-" || sign == "+"
    requires rest == [] || !IsDigit(rest[0])
    ensures ParseInt10(sign + Decimal(n) + rest) == if sign == "+" then Some(n) else Some(-(n as int))
  {
    var x := Decimal(n) + rest;
    assert sign + Decimal(n) + rest == sign + x;
    ReadDecimal(n, rest);
    ParseSigned(sign, x);
  }

  lemma ParseUnsigned(x: string)
    requires x != [] && IsDigit(x[0])
    ensures ParseInt10(x) == ReadDigits(x)
  {
    TrimStartNone(x);
  }

  lemma ParseSigned(sign: string, x: string)
    requires sign == "-" || sign == "+"
    ensures ParseInt10(sign + x) == if sign == "+" then ReadDigits(x) else
              match ReadDigits(x) case None => None case Some(v) => Some(0 - v)
  {
    TrimStartNone(sign + x);
    assert (sign + x)[1..] == x;
  }

  /** `parseInt` is `NaN` exactly when no digit follows the white space and the sign. */
  lemma ParseNaN(s: string)
    ensures var t := TrimStart(s);
            var u := if |t| > 0 && (t[0] == '-' || t[0] == '+') then t[1..] else t;
            ParseInt10(s) == None <==> u == [] || !IsDigit(u[0])
  {
    var t := TrimStart(s);
    var u := if |t| > 0 && (t[0] == '-' || t[0] == '+') then t[1..] else t;
    assert ReadSigned(t) == None <==> DigitPrefix(u) == [];
  }

  /** Leading white space is skipped. */
  lemma ParseLeadingSpace()
    ensures ParseInt10(" 42") == Some(42)
  {
    assert Decimal(42) == "42" by {
      assert Decimal(4) == "4";
    }
    ReadDecimal(42, []);
    assert Decimal(42) + [] == "42";
    TrimStartNone("42");
    assert " 42"[1..] == "42";
    assert TrimStart(" 42") == "42";
  }

  /** A fraction is cut off at the point. */
  lemma ParseFraction()
    ensures ParseInt10("3.9") == Some(3)
  {
    assert Decimal(3) + ".9" == "3.9";
    ReadDecimal(3, ".9");
    ParseUnsigned("3.9");
  }

  /** With radix 10 a hexadecimal prefix is read as the single digit 0. */
  lemma ParseHexPrefix()
    ensures ParseInt10("0x10") == Some(0)
  {
    assert Decimal(0) + "x10" == "0x10";
    ReadDecimal(0, "x10");
    ParseUnsigned("0x10");
  }

  /** A sign with no digits is `NaN`. */
  lemma ParseSignOnly()
    ensures ParseInt10("-") == None
  {
    TrimStartNone("-");
    assert "-"[1..] == [];
    assert DigitPrefix([]) == [];
  }

  // ---------------------------------------------------------------------
  // getQueryParams
  // ---------------------------------------------------------------------

  /** `searchParams.get(key)`: the first value given for the key, or `null`. */
  function QueryGet(query: seq<(string, string)>, key: string): (r: Option<string>)
    ensures r.None? <==> forall i :: 0 <= i < |query| ==> query[i].0 != key
    ensures r.Some? ==> exists i :: 0 <= i < |query| && query[i] == (key, r.value) &&
                                    forall j :: 0 <= j < i ==> query[j].0 != key
  {
    if query == [] then None
    else if query[0].0 == key then Some(query[0].1)
    else
      var r := QueryGet(query[1..], key);
      assert forall j :: 1 <= j < |query| ==> query[j] == query[1..][j - 1];
      r
  }

  /** `value || fallback` for a string or `null`: both `null` and `""` are falsy. */
  function OrElse(value: Option<string>, fallback: string): (r: string)
    ensures value.None? || value.value == [] ==> r == fallback
    ensures value.Some? && value.value != [] ==> r == value.value
  {
    if value.Some? && value.value != [] then value.value else fallback
  }

  /** What the listing reads from its URL. `page` and `limit` are `None` when they parse to `NaN`. */
  datatype QueryParams = QueryParams(
    page: Option<int>,
    limit: Option<int>,
    search: string,
    prefecture: Option<string>,
    skillLevel: Option<string>)

  const DefaultPage: string := "1"
  const DefaultLimit: string := "10"

  function GetQueryParams(query: seq<(string, string)>): (p: QueryParams)
    ensures p.page == ParseInt10(OrElse(QueryGet(query, "page"), DefaultPage))
    ensures p.limit == ParseInt10(OrElse(QueryGet(query, "limit"), DefaultLimit))
    ensures p.search == OrElse(QueryGet(query, "search"), [])
    ensures p.prefecture == QueryGet(query, "prefecture") && p.skillLevel == QueryGet(query, "skillLevel")
  {
    QueryParams(
      ParseInt10(OrElse(QueryGet(query, "page"), DefaultPage)),
      ParseInt10(OrElse(QueryGet(query, "limit"), DefaultLimit)),
      OrElse(QueryGet(query, "search"), []),
      QueryGet(query, "prefecture"),
      QueryGet(query, "skillLevel"))
  }

  /**
   * The defaults: with no `page`, `limit` or `search` (or empty ones) the
   * listing reads page 1 of 10 with no term, and no prefecture or level
   * filter when those keys are missing.
   */
  lemma QueryDefaults(query: seq<(string, string)>)
    requires forall i :: 0 <= i < |query| ==> query[i].1 == [] || query[i].0 !in {"page", "limit", "search", "prefecture", "skillLevel"}
    ensures GetQueryParams(query).page == Some(1)
    ensures GetQueryParams(query).limit == Some(10)
    ensures GetQueryParams(query).search == []
    ensures GetQueryParams(query).prefecture.None? || GetQueryParams(query).prefecture == Some([])
  {
    DefaultReadings();
  }

  /** A page number given in decimal is read as that number, whatever follows it. */
  lemma QueryPageGiven(query: seq<(string, string)>, n: nat, rest: string)
    requires rest == [] || !IsDigit(rest[0])
    requires QueryGet(query, "page") == Some(Decimal(n) + rest)
    ensures GetQueryParams(query).page == Some(n)
  {
    ParseDecimal(n, rest);
  }

  /** The default strings read as 1 and 10. */
  lemma DefaultReadings()
    ensures ParseInt10(DefaultPage) == Some(1) && ParseInt10(DefaultLimit) == Some(10)
  {
    assert Decimal(1) == DefaultPage;
    assert Decimal(10) == DefaultLimit;
    ReadDecimal(1, []);
    ReadDecimal(10, []);
    ParseUnsigned(DefaultPage);
    ParseUnsigned(DefaultLimit);
  }

  /** The empty query gives exactly the default reading. */
  lemma EmptyQuery()
    ensures GetQueryParams([]) == QueryParams(Some(1), Some(10), [], None, None)
  {
    DefaultReadings();
  }

  // ---------------------------------------------------------------------
  // validateRequest and apiHandler
  // ---------------------------------------------------------------------

  /** A request body: JSON that decoded into the expected shape, or text that is not JSON. */
  datatype RequestBody<T> = Json(value: T) | Malformed

  /** What a route can throw: a ready response, a schema error, or anything else. */
  datatype Exception =
    | ResponseThrown(response: Response<()>)
    | ZodError(issues: seq<Issue>)
    | OtherError(name: string)

  /** The two ways an asynchronous step ends. */
  datatype Outcome<T> = Returned(value: T) | Threw(error: Exception)

  /** `String(key)` for one element of an issue path. */
  function PathString(k: PathKey): string {
    match k
    case Key(name) => name
    case Index(position) => Decimal(position)
  }

  function FormatPath(path: seq<PathKey>): (r: seq<string>)
    ensures |r| == |path|
    ensures forall i :: 0 <= i < |path| ==> r[i] == PathString(path[i])
  {
    if path == [] then [] else [PathString(path[0])] + FormatPath(path[1..])
  }

  /** `error.errors.map(err => ({path: err.path.map(String), message: err.message}))`. */
  function FormatIssues(issues: seq<Issue>): (r: seq<FieldError>)
    ensures |r| == |issues|
    ensures forall i :: 0 <= i < |issues| ==> r[i] == FieldError(FormatPath(issues[i].path), issues[i].message)
  {
    if issues == [] then [] else [FieldError(FormatPath(issues[0].path), issues[0].message)] + FormatIssues(issues[1..])
  }

  /** Issues on top-level fields become field errors whose path is just the field name. */
  lemma FormatOnFields(issues: seq<Issue>, fields: set<string>)
    requires OnFields(issues, fields)
    ensures forall i :: 0 <= i < |issues| ==>
              |FormatIssues(issues)[i].path| == 1 &&
              FormatIssues(issues)[i].path[0] == issues[i].path[0].name &&
              FormatIssues(issues)[i].path[0] in fields
  {
  }

  /**
   * `validateRequest`: read the body, run the schema on it and return the
   * value; schema issues become a thrown validation response; a body that is
   * not JSON throws the parser's error, which is passed on unchanged.
   */
  function ValidateRequest<T>(body: RequestBody<T>, schema: T -> seq<Issue>): (r: Outcome<T>)
    ensures body.Malformed? ==> r == Threw(OtherError("SyntaxError"))
    ensures body.Json? && schema(body.value) == [] ==> r == Returned(body.value)
    ensures body.Json? && schema(body.value) != [] ==>
              r.Threw? && r.error.ResponseThrown? &&
              r.error.response.status == 400 &&
              r.error.response.body.errors == Some(FormatIssues(schema(body.value)))
    ensures r.Returned? <==> body.Json? && schema(body.value) == []
  {
    match body
    case Malformed => Threw(OtherError("SyntaxError"))
    case Json(v) =>
      var issues := schema(v);
      if issues == [] then Returned(v)
      else Threw(ResponseThrown(ValidationErrorResponse(FormatIssues(issues))))
  }

  /**
   * `apiHandler`: the handler's outcome is passed on as it is; an error is
   * first logged, prefixed by `[context]` when a context is given.
   * The second component is the logged line, if any.
   */
  function ApiHandler<T>(outcome: Outcome<T>, context: string): (r: (Outcome<T>, Option<string>))
    ensures r.0 == outcome
    ensures outcome.Returned? <==> r.1 == None
    ensures outcome.Threw? && outcome.error.ZodError? ==> r.1 == Some(ContextPrefix(context) + " Validation error")
    ensures outcome.Threw? && !outcome.error.ZodError? ==> r.1 == Some(ContextPrefix(context) + " Unexpected error")
  {
    match outcome
    case Returned(_) => (outcome, None)
    case Threw(e) =>
      (outcome, Some(ContextPrefix(context) + (if e.ZodError? then " Validation error" else " Unexpected error")))
  }

  /** `context ? `[${context}]` : ""`. */
  function ContextPrefix(context: string): (r: string)
    ensures context == [] ==> r == []
    ensures context != [] ==> r == "[" + context + "]"
  {
    if context == [] then [] else "[" + context + "]"
  }

  /** A thrown error response, returned from a route whose success data has type `D`. */
  function AsResponse<D>(r: Response<()>): (s: Response<D>)
    ensures s.status == r.status && s.body.data == None
    ensures s.body.success == r.body.success && s.body.message == r.body.message && s.body.errors == r.body.errors
  {
    Response(r.status, Envelope(r.body.success, r.body.message, None, r.body.errors))
  }
}
