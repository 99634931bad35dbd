/**
 * The request log of the `/api/` endpoints: which paths are logged, which
 * headers are kept, how card data in request bodies is masked, how the
 * payment id is found in the path, and the store that keeps each call with
 * its text fields cut to fixed lengths.
 */
module ApiLog {
  import opened Common

  // ---------------------------------------------------------------------------
  // Which requests are logged
  // ---------------------------------------------------------------------------

  /** `shouldExclude`: monitoring endpoints and static files. */
  predicate ShouldExclude(path: string) {
    || StartsWith(path, "/actuator") || StartsWith(path, "/health") || StartsWith(path, "/favicon.ico")
    || EndsWith(path, ".html") || EndsWith(path, ".css") || EndsWith(path, ".js") || EndsWith(path, ".ico")
  }

  /** A request is logged when its path is not excluded and lies under `/api/`. */
  predicate IsLogged(path: string) {
    !ShouldExclude(path) && StartsWith(path, "/api/")
  }

  /** The payment API lives under `/v1/`, outside `/api/`, so its calls are never logged. */
  lemma {:induction false} PaymentApiIsNotLogged(path: string)
    requires StartsWith(path, "/v1/")
    ensures !IsLogged(path)
  {
    assert path[1] == 'v' by { assert path[..4] == "/v1/"; assert path[..4][1] == path[1]; }
    if |path| >= 5 {
      assert path[..5][1] == 'v';
    }
  }

  /** The logged endpoint: the path, then `?` and the query string when there is one. */
  function Endpoint(uri: string, query: Option<string>): string {
    if query.Some? then uri + "?" + query.value else uri
  }

  /** A cached body: its text, or nothing when it is empty. */
  function BodyText(content: string): (r: Option<string>)
    ensures r.None? <==> content == []
  {
    if |content| > 0 then Some(content) else None
  }

  /** The request wrapper caches at most this many characters of the body. */
  const RequestCacheLimit: nat := 10 * 1024

  /** The request body as the caching wrapper holds it: the part read within its limit. */
  function CachedRequestBody(body: string): (r: string)
    ensures r <= body && |r| <= RequestCacheLimit
    ensures |body| <= RequestCacheLimit <==> r == body
  {
    if |body| > RequestCacheLimit then body[..RequestCacheLimit] else body
  }

  // ---------------------------------------------------------------------------
  // Headers
  // ---------------------------------------------------------------------------

  /**
   * The credentials never written to the log, whatever their case: the name
   * equals `authorization`, `cookie` or `x-api-key` ignoring case, and as
   * those are lower case that is the lower-cased name equalling one of them.
   */
  predicate IsSensitiveHeader(name: string) {
    var lower := ToLower(name);
    lower == "authorization" || lower == "cookie" || lower == "x-api-key"
  }

  /** The header map the log keeps. */
  function KeptHeaders(names: seq<string>, header: string -> string): map<string, string> {
    map name | name in names && !IsSensitiveHeader(name) :: header(name)
  }

  /**
   * `getHeaders`: walks the request's header names and keeps each one that is
   * not a credential, with its value.
   */
  method GetHeaders(names: seq<string>, header: string -> string) returns (headers: map<string, string>)
    ensures forall name :: name in headers <==> name in names && !IsSensitiveHeader(name)
    ensures forall name | name in headers :: headers[name] == header(name)
    ensures headers == KeptHeaders(names, header)
  {
    headers := map[];
    var i := 0;
    while i < |names|
      invariant 0 <= i <= |names|
      invariant forall name :: name in headers <==> name in names[..i] && !IsSensitiveHeader(name)
      invariant forall name | name in headers :: headers[name] == header(name)
    {
      TakeOneMore(names, i);
      var name := names[i];
      if !IsSensitiveHeader(name) {
        headers := headers[name := header(name)];
      }
      i := i + 1;
    }
    assert names[..i] == names;
  }

  // ---------------------------------------------------------------------------
  // Masking card data in request bodies
  // ---------------------------------------------------------------------------

  const CardKey: string := "\"cardNumber\""
  const CvvKey: string := "\"cvv\""

  /** The two rewrites applied to a body, in order. */
  datatype Pattern =
    | CardPattern   // "cardNumber"\s*:\s*"(\d{4})\d{8}(\d{4})"  ->  "cardNumber":"$1********$2"
    | CvvPattern    // "cvv"\s*:\s*"\d{3,4}"                       ->  "cvv":"***"

  datatype Match = Match(end: nat, replacement: string)

  predicate AllDigits(s: string) {
    forall k | 0 <= k < |s| :: IsDigit(s[k])
  }

  /** The first position at or after `i` that is not whitespace. */
  function SkipSpaces(s: string, i: nat): (j: nat)
    requires i <= |s|
    ensures i <= j <= |s|
    ensures forall k | i <= k < j :: IsRegexSpace(s[k])
    ensures j == |s| || !IsRegexSpace(s[j])
    decreases |s| - i
  {
    if i < |s| && IsRegexSpace(s[i]) then SkipSpaces(s, i + 1) else i
  }

  /** After `key` at `i`, the position just past `\s*:\s*"`, if that follows. */
  function ValueStart(s: string, i: nat, key: string): (r: Option<nat>)
    requires i <= |s|
    ensures r.Some? ==> i + |key| + 2 <= r.value <= |s| && s[i..i + |key|] == key
  {
    if !(i + |key| <= |s| && s[i..i + |key|] == key) then None
    else
      var j := SkipSpaces(s, i + |key|);
      if !(j < |s| && s[j] == ':') then None
      else
        var k := SkipSpaces(s, j + 1);
        if !(k < |s| && s[k] == '"') then None
        else Some(k + 1)
  }

  /**
   * The match of `pattern` starting exactly at `i`, if any, with its
   * replacement. The whitespace runs are greedy and cannot give back a
   * character, so there is at most one candidate; for the CVV the four-digit
   * reading is tried before the three-digit one.
   */
  function MatchAt(pattern: Pattern, s: string, i: nat): (r: Option<Match>)
    requires i <= |s|
    ensures r.Some? ==> i < r.value.end <= |s| && |r.value.replacement| <= r.value.end - i && s[i] == '"'
  {
    match pattern
    case CardPattern =>
      (match ValueStart(s, i, CardKey)
       case None => None
       case Some(v) =>
         if v + 17 <= |s| && AllDigits(s[v..v + 16]) && s[v + 16] == '"' then
           Some(Match(v + 17, CardKey + ":\"" + s[v..v + 4] + "********" + s[v + 12..v + 16] + "\""))
         else None)
    case CvvPattern =>
      (match ValueStart(s, i, CvvKey)
       case None => None
       case Some(v) =>
         if v + 5 <= |s| && AllDigits(s[v..v + 4]) && s[v + 4] == '"' then
           Some(Match(v + 5, CvvKey + ":\"***\""))
         else if v + 4 <= |s| && AllDigits(s[v..v + 3]) && s[v + 3] == '"' then
           Some(Match(v + 4, CvvKey + ":\"***\""))
         else None)
  }

  /**
   * `replaceAll` from position `i`: the leftmost match is replaced and the
   * search resumes after it; text where no match starts is copied.
   */
  function ReplaceFrom(pattern: Pattern, s: string, i: nat): (r: string)
    requires i <= |s|
    ensures |r| <= |s| - i
    ensures (forall k | i <= k < |s| :: s[k] != '"') ==> r == s[i..]
    decreases |s| - i
  {
    if i == |s| then []
    else
      match MatchAt(pattern, s, i)
      case Some(m) => m.replacement + ReplaceFrom(pattern, s, m.end)
      case None =>
        assert s[i..] == [s[i]] + s[i + 1..];
        [s[i]] + ReplaceFrom(pattern, s, i + 1)
  }

  function ReplaceAll(pattern: Pattern, s: string): (r: string)
    ensures |r| <= |s|
  {
    ReplaceFrom(pattern, s, 0)
  }

  /**
   * `maskSensitiveData`: an absent body stays absent; otherwise the card
   * numbers are masked and then the CVVs. Masking never lengthens a body,
   * and a body without a quote character has nothing to mask.
   */
  function MaskSensitiveData(body: Option<string>): (r: Option<string>)
    ensures body.None? <==> r.None?
    ensures r.Some? ==> |r.value| <= |body.value|
    ensures body.Some? && (forall k | 0 <= k < |body.value| :: body.value[k] != '"') ==> r == body
  {
    match body
    case None => None
    case Some(b) => Some(ReplaceAll(CvvPattern, ReplaceAll(CardPattern, b)))
  }

  /** Text without quotes ahead of the scan is copied as it is. */
  lemma {:induction false} PlainTextKept(pattern: Pattern, s: string, i: nat, j: nat)
    requires i <= j <= |s|
    requires forall k | i <= k < j :: s[k] != '"'
    ensures ReplaceFrom(pattern, s, i) == s[i..j] + ReplaceFrom(pattern, s, j)
    decreases j - i
  {
    if i < j {
      CopyOne(pattern, s, i);
      PlainTextKept(pattern, s, i + 1, j);
      ConsThenAppend(s, i, j, ReplaceFrom(pattern, s, j));
    }
  }

  /** Putting `s[i]` in front of `s[i + 1..j] + rest` gives `s[i..j] + rest`. */
  lemma ConsThenAppend(s: string, i: nat, j: nat, rest: string)
    requires i < j <= |s|
    ensures [s[i]] + (s[i + 1..j] + rest) == s[i..j] + rest
  {
    assert s[i..j] == [s[i]] + s[i + 1..j];
  }

  /** Where no quote starts, the scan copies one character and moves on. */
  lemma CopyOne(pattern: Pattern, s: string, i: nat)
    requires i < |s| && s[i] != '"'
    ensures ReplaceFrom(pattern, s, i) == [s[i]] + ReplaceFrom(pattern, s, i + 1)
  {
    assert MatchAt(pattern, s, i).None?;
  }

  /** A field written `key:"value"` at `i`: its value starts just past the opening quote. */
  lemma FieldValueStart(s: string, i: nat, key: string, value: string)
    requires i + |key| + 3 + |value| <= |s|
    requires s[i..i + |key| + 3 + |value|] == key + ":\"" + value + "\""
    ensures ValueStart(s, i, key) == Some(i + |key| + 2)
    ensures s[i + |key| + 2..i + |key| + 2 + |value|] == value
    ensures s[i + |key| + 2 + |value|] == '"'
  {
    var n := |key|;
    var field := s[i..i + n + 3 + |value|];
    assert s[i..i + n] == key by { assert s[i..i + n] == field[..n]; }
    assert s[i + n] == field[n] == ':';
    assert s[i + n + 1] == field[n + 1] == '"';
    forall k | 0 <= k < |value| ensures s[i + n + 2 + k] == value[k] {
      assert s[i + n + 2 + k] == field[n + 2 + k];
    }
    assert s[i + n + 2 + |value|] == field[n + 2 + |value|];
  }

  /** A card field with a sixteen-digit number keeps its first and last four digits and hides the eight between. */
  lemma CardFieldMasked(s: string, i: nat, digits: string)
    requires |digits| == 16 && AllDigits(digits)
    requires i + 31 <= |s| && s[i..i + 31] == CardKey + ":\"" + digits + "\""
    ensures ReplaceFrom(CardPattern, s, i) ==
      CardKey + ":\"" + digits[..4] + "********" + digits[12..] + "\"" + ReplaceFrom(CardPattern, s, i + 31)
  {
    FieldValueStart(s, i, CardKey, digits);
    assert s[i + 14..i + 18] == digits[..4];
    assert s[i + 26..i + 30] == digits[12..];
    var m := Match(i + 31, CardKey + ":\"" + digits[..4] + "********" + digits[12..] + "\"");
    assert MatchAt(CardPattern, s, i) == Some(m);
  }

  /** A CVV field with three or four digits becomes `"cvv":"***"`. */
  lemma CvvFieldMasked(s: string, i: nat, cvv: string)
    requires 3 <= |cvv| <= 4 && AllDigits(cvv)
    requires i + 8 + |cvv| <= |s| && s[i..i + 8 + |cvv|] == CvvKey + ":\"" + cvv + "\""
    ensures ReplaceFrom(CvvPattern, s, i) == CvvKey + ":\"***\"" + ReplaceFrom(CvvPattern, s, i + 8 + |cvv|)
  {
    FieldValueStart(s, i, CvvKey, cvv);
    if |cvv| == 3 {
      assert !AllDigits(s[i + 7..i + 11]) by { assert s[i + 7..i + 11][3] == s[i + 10] == '"'; }
    }
    assert MatchAt(CvvPattern, s, i) == Some(Match(i + 8 + |cvv|, CvvKey + ":\"***\""));
  }

  // ---------------------------------------------------------------------------
  // The payment id in the path
  // ---------------------------------------------------------------------------

  const PaymentsSegment: string := "/payments/"

  /** The character class `[a-f0-9-]`. */
  predicate IsIdChar(c: char) {
    ('a' <= c <= 'f') || IsDigit(c) || c == '-'
  }

  /** `/payments/([a-f0-9-]{36})` matches at `p`. */
  predicate PaymentPathAt(endpoint: string, p: nat) {
    && p + 46 <= |endpoint|
    && endpoint[p..p + 10] == PaymentsSegment
    && forall k | p + 10 <= k < p + 46 :: IsIdChar(endpoint[k])
  }

  /** `matcher.find()` from `from`: the 36 captured characters of the leftmost match. */
  function FindPaymentPath(endpoint: string, from: nat): (r: Option<string>)
    ensures r.None? <==> forall p | from <= p :: !PaymentPathAt(endpoint, p)
    ensures r.Some? ==> exists p | from <= p :: PaymentPathAt(endpoint, p) && r.value == endpoint[p + 10..p + 46]
    ensures forall p | from <= p && PaymentPathAt(endpoint, p) && (forall q | from <= q < p :: !PaymentPathAt(endpoint, q)) ::
      r == Some(endpoint[p + 10..p + 46])
    decreases |endpoint| - from
  {
    if from + 46 > |endpoint| then None
    else if PaymentPathAt(endpoint, from) then Some(endpoint[from + 10..from + 46])
    else FindPaymentPath(endpoint, from + 1)
  }

  /** The text between the dashes, empty pieces included. */
  function Pieces(t: string): (r: seq<string>)
    ensures |r| >= 1
  {
    if t == [] then [[]]
    else
      var rest := Pieces(t[1..]);
      if t[0] == '-' then [[]] + rest else [[t[0]] + rest[0]] + rest[1..]
  }

  /** The value of a lower-case hexadecimal numeral. */
  function HexValue(digits: string): nat {
    if digits == [] then 0
    else
      var last := digits[|digits| - 1];
      var d := if IsDigit(last) then last as int - '0' as int
               else if 'a' <= last <= 'f' then last as int - 'a' as int + 10
               else 0;
      HexValue(digits[..|digits| - 1]) * 16 + d
  }

  /** 2^63: `Long.parseLong` rejects larger values. */
  const LongLimit: nat := 0x8000_0000_0000_0000

  /**
   * `UUID.fromString` succeeds on text of this length iff it has exactly four
   * dashes and each of the five pieces is a non-empty numeral that fits in a
   * signed 64-bit integer.
   */
  predicate UuidParses(t: string) {
    var pieces := Pieces(t);
    && |pieces| == 5
    && forall k | 0 <= k < 5 :: pieces[k] != [] && HexValue(pieces[k]) < LongLimit
  }

  /** `extractPaymentId`: the captured id when it parses, nothing otherwise. */
  function ExtractPaymentId(endpoint: string): (r: Option<string>)
    ensures r.Some? ==>
      && |r.value| == 36 && UuidParses(r.value)
      && exists p :: PaymentPathAt(endpoint, p) && endpoint[p + 10..p + 46] == r.value
    ensures (forall p :: !PaymentPathAt(endpoint, p)) ==> r.None?
    ensures forall p: nat | PaymentPathAt(endpoint, p) && (forall q | 0 <= q < p :: !PaymentPathAt(endpoint, q)) ::
      r == if UuidParses(endpoint[p + 10..p + 46]) then Some(endpoint[p + 10..p + 46]) else None
  {
    match FindPaymentPath(endpoint, 0)
    case None => None
    case Some(id) => if UuidParses(id) then Some(id) else None
  }

  /** The canonical 8-4-4-4-12 lower-case form. */
  predicate IsCanonicalUuid(u: string) {
    && |u| == 36
    && u[8] == '-' && u[13] == '-' && u[18] == '-' && u[23] == '-'
    && forall k | 0 <= k < 36 && k != 8 && k != 13 && k != 18 && k != 23 :: ('a' <= u[k] <= 'f') || IsDigit(u[k])
  }

  lemma {:induction false} PiecesOfDashFree(a: string)
    requires forall k | 0 <= k < |a| :: a[k] != '-'
    ensures Pieces(a) == [a]
  {
    if a != [] {
      PiecesOfDashFree(a[1..]);
      assert [a[0]] + a[1..] == a;
    }
  }

  lemma {:induction false} PiecesAfterDash(a: string, b: string)
    requires forall k | 0 <= k < |a| :: a[k] != '-'
    ensures Pieces(a + "-" + b) == [a] + Pieces(b)
  {
    if a == [] {
      assert a + "-" + b == "-" + b;
      assert ("-" + b)[1..] == b;
    } else {
      PiecesAfterDash(a[1..], b);
      assert (a + "-" + b)[1..] == a[1..] + "-" + b;
      assert [a[0]] + a[1..] == a;
    }
  }

  lemma {:induction false} HexValueBelow(digits: string, n: nat, bound: nat)
    requires |digits| <= n && bound == Power16(n)
    ensures HexValue(digits) < bound
    decreases n
  {
    if digits != [] {
      HexValueBelow(digits[..|digits| - 1], n - 1, Power16(n - 1));
    }
  }

  function Power16(n: nat): (p: nat)
    ensures p >= 1
  {
    if n == 0 then 1 else 16 * Power16(n - 1)
  }

  lemma Power16OfTwelve()
    ensures Power16(12) == 0x1_0000_0000_0000
  {
    assert Power16(1) == 0x10;
    assert Power16(2) == 0x100;
    assert Power16(3) == 0x1000;
    assert Power16(4) == 0x1_0000;
    assert Power16(5) == 0x10_0000;
    assert Power16(6) == 0x100_0000;
    assert Power16(7) == 0x1000_0000;
    assert Power16(8) == 0x1_0000_0000;
    assert Power16(9) == 0x10_0000_0000;
    assert Power16(10) == 0x100_0000_0000;
    assert Power16(11) == 0x1000_0000_0000;
  }

  /** A canonical UUID parses. */
  lemma CanonicalUuidParses(u: string)
    requires IsCanonicalUuid(u)
    ensures UuidParses(u)
  {
    var p0, p1, p2, p3, p4 := u[..8], u[9..13], u[14..18], u[19..23], u[24..];
    assert u == p0 + "-" + (p1 + "-" + (p2 + "-" + (p3 + "-" + p4)));
    PiecesOfDashFree(p4);
    PiecesAfterDash(p3, p4);
    PiecesAfterDash(p2, p3 + "-" + p4);
    PiecesAfterDash(p1, p2 + "-" + (p3 + "-" + p4));
    PiecesAfterDash(p0, p1 + "-" + (p2 + "-" + (p3 + "-" + p4)));
    assert Pieces(u) == [p0, p1, p2, p3, p4];
    Power16OfTwelve();
    HexValueBelow(p0, 12, Power16(12));
    HexValueBelow(p1, 12, Power16(12));
    HexValueBelow(p2, 12, Power16(12));
    HexValueBelow(p3, 12, Power16(12));
    HexValueBelow(p4, 12, Power16(12));
  }

  /** The demo endpoints carry the payment id right after `/api/demo/payments/`, and it is the id logged. */
  lemma DemoPathYieldsPaymentId(u: string, rest: string)
    requires IsCanonicalUuid(u)
    ensures ExtractPaymentId("/api/demo/payments/" + u + rest) == Some(u)
  {
    var endpoint := "/api/demo/payments/" + u + rest;
    var prefix := "/api/demo/payments/";
    assert endpoint[..19] == prefix;
    forall p: nat | p < 9 ensures !PaymentPathAt(endpoint, p) {
      assert endpoint[p..p + 10][0] == endpoint[p] == prefix[p];
      assert endpoint[p..p + 10][1] == endpoint[p + 1] == prefix[p + 1];
      assert prefix[p] != '/' || prefix[p + 1] != 'p';
    }
    assert endpoint[9..19] == PaymentsSegment;
    assert endpoint[19..55] == u;
    assert PaymentPathAt(endpoint, 9);
    FindSkipsTo(endpoint, 0, 9);
    CanonicalUuidParses(u);
  }

  /** When no match starts before `p` and one starts at `p`, the search finds that one. */
  lemma {:induction false} FindSkipsTo(endpoint: string, from: nat, p: nat)
    requires from <= p && PaymentPathAt(endpoint, p)
    requires forall q | from <= q < p :: !PaymentPathAt(endpoint, q)
    ensures FindPaymentPath(endpoint, from) == Some(endpoint[p + 10..p + 46])
    decreases p - from
  {
    if from < p {
      FindSkipsTo(endpoint, from + 1, p);
    }
  }

  // ---------------------------------------------------------------------------
  // The log store
  // ---------------------------------------------------------------------------

  const HeaderLimit: nat := 2000
  const BodyLimit: nat := 5000

  /** `truncate`: text longer than the limit is cut to it and marked with `...`. */
  function Truncate(text: Option<string>, maxLength: nat): (r: Option<string>)
    ensures text.None? <==> r.None?
    ensures text.Some? && |text.value| <= maxLength ==> r == text
    ensures text.Some? && |text.value| > maxLength ==>
      |r.value| == maxLength + 3 && r.value[..maxLength] == text.value[..maxLength] && r.value[maxLength..] == "..."
    ensures r.Some? ==> |r.value| <= maxLength + 3
  {
    match text
    case None => None
    case Some(s) => if |s| > maxLength then Some(s[..maxLength] + "...") else text
  }

  /** Cutting an already cut text changes nothing. */
  lemma TruncateIdempotent(text: Option<string>, maxLength: nat)
    ensures Truncate(Truncate(text, maxLength), maxLength) == Truncate(text, maxLength)
  {
    if text.Some? && |text.value| > maxLength {
      var cut := Truncate(text, maxLength).value;
      assert cut[..maxLength] == text.value[..maxLength];
    }
  }

  datatype ApiLogEntry = ApiLogEntry(
    id: nat,
    correlationId: string,
    paymentId: Option<string>,
    httpMethod: string,
    endpoint: string,
    requestHeaders: Option<string>,
    requestBody: Option<string>,
    responseStatus: int,
    responseBody: Option<string>,
    latencyMs: int)

  /** Every stored text field respects its limit (plus the three-character marker). */
  predicate WithinLimits(e: ApiLogEntry) {
    && (e.requestHeaders.Some? ==> |e.requestHeaders.value| <= HeaderLimit + 3)
    && (e.requestBody.Some? ==> |e.requestBody.value| <= BodyLimit + 3)
    && (e.responseBody.Some? ==> |e.responseBody.value| <= BodyLimit + 3)
  }

  class ApiLogService {
    var logs: seq<ApiLogEntry>

    constructor()
      ensures logs == []
    {
      logs := [];
    }

    predicate Valid()
      reads this
    {
      forall i | 0 <= i < |logs| :: logs[i].id == i && WithinLimits(logs[i])
    }

    /**
     * `logRequest`: stores one entry with the headers and bodies cut to their
     * limits. When storing fails (`storeFails`) the failure is swallowed and
     * nothing is stored; the call never reports an error.
     */
    method LogRequest(correlationId: string, paymentId: Option<string>, httpMethod: string, endpoint: string,
                      headers: Option<string>, body: Option<string>, status: int, response: Option<string>,
                      latencyMs: int, storeFails: bool)
      requires Valid()
      modifies this
      ensures Valid()
      ensures storeFails ==> logs == old(logs)
      ensures !storeFails ==> logs == old(logs) + [
        ApiLogEntry(|old(logs)|, correlationId, paymentId, httpMethod, endpoint, Truncate(headers, HeaderLimit),
                    Truncate(body, BodyLimit), status, Truncate(response, BodyLimit), latencyMs)]
    {
      if storeFails {
        return;
      }
      logs := logs + [ApiLogEntry(|logs|, correlationId, paymentId, httpMethod, endpoint, Truncate(headers, HeaderLimit),
                                  Truncate(body, BodyLimit), status, Truncate(response, BodyLimit), latencyMs)];
    }
  }

  // ---------------------------------------------------------------------------
  // The filter
  // ---------------------------------------------------------------------------

  /** What the filter sees of a request: `header` answers `getHeader` for each listed name. */
  datatype HttpRequest = HttpRequest(
    httpMethod: string, uri: string, query: Option<string>, headerNames: seq<string>, header: string -> string,
    body: string)

  /** What the rest of the chain produced. */
  datatype HttpResponse = HttpResponse(status: int, body: string)

  /** The entry a logged call produces, before the store cuts its fields. */
  function EntryFields(request: HttpRequest, response: HttpResponse, renderHeaders: map<string, string> -> string)
    : (t: (string, Option<string>, Option<string>, Option<string>, Option<string>))
  {
    var endpoint := Endpoint(request.uri, request.query);
    (endpoint, ExtractPaymentId(endpoint), Some(renderHeaders(KeptHeaders(request.headerNames, request.header))),
     MaskSensitiveData(BodyText(CachedRequestBody(request.body))), BodyText(response.body))
  }

  class ApiLogFilter {
    const service: ApiLogService
    /** `Map.toString` of the kept headers; its entry order is the hash map's. */
    const renderHeaders: map<string, string> -> string

    constructor(service: ApiLogService, renderHeaders: map<string, string> -> string)
      ensures this.service == service && this.renderHeaders == renderHeaders
    {
      this.service := service;
      this.renderHeaders := renderHeaders;
    }

    /**
     * `doFilter` after the rest of the chain answered `response`: a logged
     * request gets one entry (unless handing it to the log fails, `logFails`,
     * or the store fails, `storeFails`), and in every case the response body
     * reaches the client. `correlationId` is the request's correlation id, or
     * the random one the filter invents when it has none.
     */
    method DoFilter(request: HttpRequest, response: HttpResponse, latencyMs: int, correlationId: string,
                    logFails: bool, storeFails: bool) returns (sent: string)
      requires service.Valid()
      modifies service
      ensures service.Valid()
      ensures sent == response.body
      ensures !IsLogged(request.uri) || logFails || storeFails ==> service.logs == old(service.logs)
      ensures IsLogged(request.uri) && !logFails && !storeFails ==>
        var f := EntryFields(request, response, renderHeaders);
        && service.logs == old(service.logs) + [
             ApiLogEntry(|old(service.logs)|, correlationId, f.1, request.httpMethod, f.0, Truncate(f.2, HeaderLimit),
                         Truncate(f.3, BodyLimit), response.status, Truncate(f.4, BodyLimit), latencyMs)]
        && (f.3.Some? ==> |f.3.value| <= |request.body| && |f.3.value| <= RequestCacheLimit)
    {
      if ShouldExclude(request.uri) || !StartsWith(request.uri, "/api/") {
        return response.body;
      }
      if !logFails {
        var endpoint := Endpoint(request.uri, request.query);
        var headers := GetHeaders(request.headerNames, request.header);
        var paymentId := ExtractPaymentId(endpoint);
        service.LogRequest(correlationId, paymentId, request.httpMethod, endpoint, Some(renderHeaders(headers)),
                           MaskSensitiveData(BodyText(CachedRequestBody(request.body))), response.status, BodyText(response.body),
                           latencyMs, storeFails);
      }
      sent := response.body;
    }
  }
}
