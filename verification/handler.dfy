/**
 * The HTTP handler: `Generate`, `HealthCheck` and `Root` as pure
 * functions from an abstract request to an abstract response.  The query
 * parser, the body reader, the QR service and the response writer are
 * replaced by the values they produce or by function parameters.
 */
module Handler {
  import opened Wrappers
  import Decimal
  import Text
  import QrService

  const MethodGet: string := "GET"
  const MethodPost: string := "POST"

  const StatusOK: int := 200
  const StatusBadRequest: int := 400
  const StatusNotFound: int := 404
  const StatusMethodNotAllowed: int := 405
  const StatusRequestEntityTooLarge: int := 413
  const StatusInternalServerError: int := 500

  /** The size used when neither the configuration nor the request gives a usable one. */
  const FallbackDefaultSize: int := 256

  const GenerateMethodMessage: string := "Method not allowed. Use GET or POST."
  const HealthMethodMessage: string := "Method not allowed"
  const MissingContentMessage: string := "Missing query parameter: content"
  const BodyTooLargeMessage: string := "Request body too large"
  const BodyReadFailedMessage: string := "Failed to read request body"
  const EmptyBodyMessage: string := "Request body is empty"
  const SizeErrorPrefix: string := "Invalid size parameter. Must be between "
  const SizeErrorSeparator: string := " and "

  /** `HandlerConfig`: the body limit and the QR size bounds and default. */
  datatype HandlerConfig = HandlerConfig(maxBodySize: int, minQRSize: int, maxQRSize: int, defaultSize: int)

  /** What reading a POST body produced: its bytes, the size-limit error, or any other read error. */
  datatype BodyRead = BodyRead(body: string) | BodyTooLarge | BodyReadFailed

  /**
   * The parts of an HTTP request the handler looks at: the method, the
   * `content` and `size` query values (empty when absent) and the outcome
   * of reading the body under the size limit.
   */
  datatype Request = Request(verb: string, content: string, size: string, body: BodyRead)

  /** `url.QueryUnescape`, left abstract: decodes some strings and rejects the rest. */
  type Unescaper = string -> Option<string>

  /** An error response the handler decides on before or instead of encoding. */
  datatype Rejection = Rejection(status: int, message: string)

  /** The outcome of validation: an error response, or a call to the service. */
  datatype Decision = Reject(why: Rejection) | Encode(payload: string, size: int)

  /** The responses the handler writes. */
  datatype Response =
    | ErrorJson(status: int, message: string)  // `{"error": message}`
    | Png(png: string)                         // the service's PNG bytes
    | HealthOk                                 // `{"status":"ok"}`
    | ApiInfo                                  // the service descriptor
    | NotFound                                 // `http.NotFound`
  {
    function Status(): int {
      match this
      case ErrorJson(status, _) => status
      case Png(_) => StatusOK
      case HealthOk => StatusOK
      case ApiInfo => StatusOK
      case NotFound => StatusNotFound
    }

    function ContentType(): string {
      match this
      case Png(_) => "image/png"
      case NotFound => "text/plain; charset=utf-8"
      case _ => "application/json"
    }
  }

  /** `NewHandler`: a non-positive default size is replaced by 256; nothing else changes. */
  function NewHandler(cfg: HandlerConfig): (h: HandlerConfig)
    ensures h.defaultSize > 0
    ensures cfg.defaultSize > 0 ==> h == cfg
    ensures cfg.defaultSize <= 0 ==> h == cfg.(defaultSize := FallbackDefaultSize)
  {
    if cfg.defaultSize <= 0 then cfg.(defaultSize := FallbackDefaultSize) else cfg
  }

  /**
   * `http.MaxBytesReader` followed by `io.ReadAll`, for a body that arrives
   * whole: more bytes than the limit (a negative limit counts as zero) is
   * the too-large error.  The limit counts the body's UTF-8 bytes.
   */
  function LimitedRead(raw: string, limit: int): (o: BodyRead)
    ensures o.BodyTooLarge? <==> Text.Utf8Length(raw) > limit && |raw| > 0
    ensures o.BodyRead? ==> o.body == raw
    ensures !o.BodyReadFailed?
  {
    var n := if limit < 0 then 0 else limit;
    if Text.Utf8Length(raw) > n then BodyTooLarge else BodyRead(raw)
  }

  /** The GET payload: the unescaped `content`, or the raw value when unescaping fails. */
  function UnescapeOrRaw(unescape: Unescaper, content: string): (p: string)
    ensures unescape(content).Some? ==> p == unescape(content).value
    ensures unescape(content).None? ==> p == content
  {
    unescape(content).GetOr(content)
  }

  /** The `switch r.Method` in `Generate`: where the payload comes from and how that fails. */
  function ExtractPayload(req: Request, unescape: Unescaper): (p: Result<string, Rejection>)
    ensures req.verb == MethodGet && req.content == "" ==>
      p == Failure(Rejection(StatusBadRequest, MissingContentMessage))
    ensures req.verb == MethodGet && req.content != "" ==>
      p == Success(UnescapeOrRaw(unescape, req.content))
    ensures req.verb == MethodPost && req.body.BodyTooLarge? ==>
      p == Failure(Rejection(StatusRequestEntityTooLarge, BodyTooLargeMessage))
    ensures req.verb == MethodPost && req.body.BodyReadFailed? ==>
      p == Failure(Rejection(StatusInternalServerError, BodyReadFailedMessage))
    ensures req.verb == MethodPost && req.body == BodyRead("") ==>
      p == Failure(Rejection(StatusBadRequest, EmptyBodyMessage))
    ensures req.verb == MethodPost && req.body.BodyRead? && |req.body.body| > 0 ==> p == Success(req.body.body)
    ensures req.verb == MethodPost && p.Success? ==> req.body == BodyRead(p.value) && |p.value| > 0
  {
    if req.verb == MethodGet then
      if req.content == "" then Failure(Rejection(StatusBadRequest, MissingContentMessage))
      else Success(UnescapeOrRaw(unescape, req.content))
    else if req.verb == MethodPost then
      match req.body
      case BodyTooLarge => Failure(Rejection(StatusRequestEntityTooLarge, BodyTooLargeMessage))
      case BodyReadFailed => Failure(Rejection(StatusInternalServerError, BodyReadFailedMessage))
      case BodyRead(b) =>
        if |b| == 0 then Failure(Rejection(StatusBadRequest, EmptyBodyMessage)) else Success(b)
    else
      Success("")
  }

  /**
   * `parseSize`: the default when `s` is empty (not checked against the
   * bounds), otherwise the integer `s` denotes if it lies within the
   * bounds, and 0 for anything else.
   */
  function ParseSize(h: HandlerConfig, s: string): (n: int)
    ensures s == "" ==> n == h.defaultSize
    ensures s != "" ==> n == 0 || h.minQRSize <= n <= h.maxQRSize
    ensures s != "" && n != 0 ==> Decimal.Atoi(s) == Some(n)
    ensures s != "" && Decimal.Atoi(s).Some? && h.minQRSize <= Decimal.Atoi(s).value <= h.maxQRSize ==>
      n == Decimal.Atoi(s).value
    ensures s != "" && Decimal.Atoi(s).None? ==> n == 0
  {
    if s == "" then h.defaultSize
    else
      match Decimal.Atoi(s)
      case None => 0
      case Some(n) => if n < h.minQRSize || n > h.maxQRSize then 0 else n
  }

  /** The 400 message for a bad size, quoting the configured bounds in decimal. */
  function SizeErrorMessage(min: int, max: int): (m: string)
    ensures |m| > |SizeErrorPrefix| && m[..|SizeErrorPrefix|] == SizeErrorPrefix
    ensures m[|SizeErrorPrefix|..] == Decimal.FormatInt(min) + SizeErrorSeparator + Decimal.FormatInt(max)
  {
    SizeErrorPrefix + Decimal.FormatInt(min) + SizeErrorSeparator + Decimal.FormatInt(max)
  }

  predicate AllowedMethod(verb: string) {
    verb == MethodGet || verb == MethodPost
  }

  /** The checks of `Generate` in their order: method, payload, size. */
  function Decide(h: HandlerConfig, req: Request, unescape: Unescaper): (d: Decision)
    ensures !AllowedMethod(req.verb) ==> d == Reject(Rejection(StatusMethodNotAllowed, GenerateMethodMessage))
    ensures d.Encode? ==> AllowedMethod(req.verb) && d.size > 0
    ensures d.Encode? && req.verb == MethodPost ==> req.body == BodyRead(d.payload) && |d.payload| > 0
    ensures d.Encode? && req.verb == MethodGet ==>
      req.content != "" && d.payload == UnescapeOrRaw(unescape, req.content)
    ensures d.Reject? ==> d.why.status in {StatusBadRequest, StatusMethodNotAllowed,
                                           StatusRequestEntityTooLarge, StatusInternalServerError}
  {
    if !AllowedMethod(req.verb) then
      Reject(Rejection(StatusMethodNotAllowed, GenerateMethodMessage))
    else
      match ExtractPayload(req, unescape)
      case Failure(rejection) => Reject(rejection)
      case Success(payload) =>
        var size := ParseSize(h, req.size);
        if size <= 0 then Reject(Rejection(StatusBadRequest, SizeErrorMessage(h.minQRSize, h.maxQRSize)))
        else Encode(payload, size)
  }

  /** `Generate`: validate, then call the service and report its outcome. */
  function Generate(h: HandlerConfig, req: Request, unescape: Unescaper, svc: QrService.Service): (resp: Response)
    ensures resp.Status() in {StatusOK, StatusBadRequest, StatusMethodNotAllowed,
                              StatusRequestEntityTooLarge, StatusInternalServerError}
    ensures resp.Png? ==> resp.ContentType() == "image/png"
    ensures resp.ErrorJson? || resp.Png?
  {
    match Decide(h, req, unescape)
    case Reject(Rejection(status, message)) => ErrorJson(status, message)
    case Encode(payload, size) =>
      match svc(payload, size)
      case Failure(e) => ErrorJson(StatusInternalServerError, e)
      case Success(png) => Png(png)
  }

  /** `HealthCheck`: GET only. */
  function HealthCheck(verb: string): (resp: Response)
    ensures verb == MethodGet <==> resp == HealthOk
    ensures verb != MethodGet ==> resp == ErrorJson(StatusMethodNotAllowed, HealthMethodMessage)
  {
    if verb != MethodGet then ErrorJson(StatusMethodNotAllowed, HealthMethodMessage) else HealthOk
  }

  /** `Root`: the descriptor for exactly the path `/`, whatever the method; not found otherwise. */
  function Root(path: string): (resp: Response)
    ensures path == "/" <==> resp == ApiInfo
    ensures path != "/" ==> resp == NotFound && resp.Status() == StatusNotFound
  {
    if path != "/" then NotFound else ApiInfo
  }

  /**
   * Reads the bounds back out of a size error message; the inverse of
   * `SizeErrorMessage`, used to state that the message names the range.
   */
  function RangeInMessage(msg: string): Option<(int, int)> {
    var k := |SizeErrorPrefix|;
    if |msg| < k || msg[..k] != SizeErrorPrefix then None
    else
      var rest := msg[k..];
      var i := Text.IndexOf(rest, ' ');
      var j := i + |SizeErrorSeparator|;
      if |rest| < j || rest[i..j] != SizeErrorSeparator then None
      else
        match (Decimal.Atoi(rest[..i]), Decimal.Atoi(rest[j..]))
        case (Some(lo), Some(hi)) => Some((lo, hi))
        case _ => None
  }

  /** The size error message names the configured bounds exactly. */
  lemma SizeMessageNamesRange(min: int, max: int)
    requires Decimal.InRange(min, Decimal.IntSize) && Decimal.InRange(max, Decimal.IntSize)
    ensures RangeInMessage(SizeErrorMessage(min, max)) == Some((min, max))
  {
    var a := Decimal.FormatInt(min);
    var b := Decimal.FormatInt(max);
    var msg := SizeErrorMessage(min, max);
    var k := |SizeErrorPrefix|;
    assert msg[..k] == SizeErrorPrefix;
    var rest := msg[k..];
    assert rest == a + SizeErrorSeparator + b;
    assert rest[|a|] == ' ';
    var i := Text.IndexOf(rest, ' ');
    assert i == |a|;
    var j := i + |SizeErrorSeparator|;
    assert rest[..i] == a;
    assert rest[i..j] == SizeErrorSeparator;
    assert rest[j..] == b;
    Decimal.ParseFormatRoundTrip(min, Decimal.IntSize);
    Decimal.ParseFormatRoundTrip(max, Decimal.IntSize);
  }

  /** A method other than GET or POST is answered 405 whatever else the request holds. */
  lemma OtherMethodsRejected(h: HandlerConfig, h': HandlerConfig, req: Request, req': Request,
                             unescape: Unescaper, unescape': Unescaper,
                             svc: QrService.Service, svc': QrService.Service)
    requires !AllowedMethod(req.verb) && req'.verb == req.verb
    ensures Generate(h, req, unescape, svc) == Generate(h', req', unescape', svc')
    ensures Generate(h, req, unescape, svc) == ErrorJson(StatusMethodNotAllowed, GenerateMethodMessage)
  {
  }

  /** A payload error is reported whatever the `size` parameter says and without calling the service. */
  lemma PayloadErrorsPrecedeSize(h: HandlerConfig, req: Request, size': string, unescape: Unescaper,
                                 svc: QrService.Service, svc': QrService.Service)
    requires AllowedMethod(req.verb) && ExtractPayload(req, unescape).Failure?
    ensures Generate(h, req.(size := size'), unescape, svc') == Generate(h, req, unescape, svc)
    ensures Generate(h, req, unescape, svc).status == ExtractPayload(req, unescape).error.status
  {
  }

  /** The service is called exactly when every check passes, and then with a positive size. */
  lemma EncodeExactlyWhenChecksPass(h: HandlerConfig, req: Request, unescape: Unescaper, payload: string, size: int)
    ensures Decide(h, req, unescape) == Encode(payload, size) <==>
      && AllowedMethod(req.verb)
      && ExtractPayload(req, unescape) == Success(payload)
      && ParseSize(h, req.size) == size
      && size > 0
  {
  }

  /** A bad size, once the payload is good, is a 400 naming the bounds. */
  lemma BadSizeNamesBounds(h: HandlerConfig, req: Request, unescape: Unescaper, svc: QrService.Service)
    requires AllowedMethod(req.verb) && ExtractPayload(req, unescape).Success?
    requires ParseSize(h, req.size) <= 0
    requires Decimal.InRange(h.minQRSize, Decimal.IntSize) && Decimal.InRange(h.maxQRSize, Decimal.IntSize)
    ensures Generate(h, req, unescape, svc).status == StatusBadRequest
    ensures RangeInMessage(Generate(h, req, unescape, svc).message) == Some((h.minQRSize, h.maxQRSize))
  {
    SizeMessageNamesRange(h.minQRSize, h.maxQRSize);
  }

  /** Once the checks pass, the service's error becomes a 500 carrying its message; its PNG a 200. */
  lemma ServiceOutcomeReported(h: HandlerConfig, req: Request, unescape: Unescaper, svc: QrService.Service)
    requires Decide(h, req, unescape).Encode?
    ensures var d := Decide(h, req, unescape);
      && (svc(d.payload, d.size).Failure? ==>
            Generate(h, req, unescape, svc) == ErrorJson(StatusInternalServerError, svc(d.payload, d.size).error))
      && (svc(d.payload, d.size).Success? ==>
            Generate(h, req, unescape, svc) == Png(svc(d.payload, d.size).value))
  {
  }

  /** A rejected request never depends on the service: it is not called. */
  lemma RejectionIgnoresService(h: HandlerConfig, req: Request, unescape: Unescaper,
                                svc: QrService.Service, svc': QrService.Service)
    requires Decide(h, req, unescape).Reject?
    ensures Generate(h, req, unescape, svc) == Generate(h, req, unescape, svc')
    ensures Generate(h, req, unescape, svc) ==
      ErrorJson(Decide(h, req, unescape).why.status, Decide(h, req, unescape).why.message)
  {
  }

  /** A POST with a non-empty body and a size written in decimal within the bounds reaches the service. */
  lemma ValidPostReachesService(h: HandlerConfig, body: string, n: int)
    requires |body| > 0 && 0 < n && h.minQRSize <= n <= h.maxQRSize
    requires Decimal.InRange(n, Decimal.IntSize)
    ensures forall unescape: Unescaper ::
      Decide(h, Request(MethodPost, "", Decimal.FormatInt(n), BodyRead(body)), unescape) == Encode(body, n)
  {
    Decimal.ParseFormatRoundTrip(n, Decimal.IntSize);
  }

  /** A GET with non-empty content and a valid decimal size reaches the service with the decoded content. */
  lemma ValidGetReachesService(h: HandlerConfig, content: string, n: int, unescape: Unescaper, body: BodyRead)
    requires content != "" && 0 < n && h.minQRSize <= n <= h.maxQRSize
    requires Decimal.InRange(n, Decimal.IntSize)
    ensures Decide(h, Request(MethodGet, content, Decimal.FormatInt(n), body), unescape) ==
      Encode(UnescapeOrRaw(unescape, content), n)
  {
    Decimal.ParseFormatRoundTrip(n, Decimal.IntSize);
  }

  /** Without a `size` parameter the configured default is used, even when it lies outside the bounds. */
  lemma MissingSizeUsesDefault(cfg: HandlerConfig, body: string, unescape: Unescaper)
    requires |body| > 0
    ensures Decide(NewHandler(cfg), Request(MethodPost, "", "", BodyRead(body)), unescape) ==
      Encode(body, NewHandler(cfg).defaultSize)
  {
  }

  /** The default size bypasses the bounds: here the service is asked for 1000 pixels with a maximum of 512. */
  lemma DefaultSizeBypassesBounds(unescape: Unescaper)
    ensures var h := NewHandler(HandlerConfig(1024 * 1024, 64, 512, 1000));
      Decide(h, Request(MethodPost, "", "", BodyRead("hello")), unescape) == Encode("hello", 1000)
      && 1000 > h.maxQRSize
  {
  }

  /** A POST whose body read hit the size limit is answered 413, whatever the query parameters. */
  lemma TooLargeRejected(h: HandlerConfig, req: Request, unescape: Unescaper, svc: QrService.Service)
    requires req.verb == MethodPost && req.body == BodyTooLarge
    ensures Generate(h, req, unescape, svc) == ErrorJson(StatusRequestEntityTooLarge, BodyTooLargeMessage)
  {
  }

  /** A body longer than the limit, counted in bytes, is answered 413, whatever the query parameters. */
  lemma OversizedBodyRejected(h: HandlerConfig, raw: string, req: Request, unescape: Unescaper, svc: QrService.Service)
    requires Text.Utf8Length(raw) > h.maxBodySize && |raw| > 0
    requires req.verb == MethodPost && req.body == LimitedRead(raw, h.maxBodySize)
    ensures Generate(h, req, unescape, svc) == ErrorJson(StatusRequestEntityTooLarge, BodyTooLargeMessage)
  {
    assert req.body == BodyTooLarge;
    TooLargeRejected(h, req, unescape, svc);
  }

  /** The limit counts bytes, not characters: the one-character body `é` is two bytes, over a limit of 1. */
  lemma LimitCountsBytes(unescape: Unescaper, svc: QrService.Service)
    ensures var h := HandlerConfig(1, 64, 512, 256);
      Generate(h, Request(MethodPost, "", "", LimitedRead("\U{00E9}", h.maxBodySize)), unescape, svc) ==
        ErrorJson(StatusRequestEntityTooLarge, BodyTooLargeMessage)
  {
    assert Text.Utf8Length("\U{00E9}") == 2;
  }

  /** For POST the service's own empty-data guard is never reached: the handler refuses empty bodies first. */
  lemma ServiceGuardUnreachableForPost(h: HandlerConfig, req: Request, unescape: Unescaper, encode: QrService.Encoder)
    requires req.verb == MethodPost
    ensures Generate(h, req, unescape, QrService.ServiceOf(encode)) != ErrorJson(StatusInternalServerError, QrService.EmptyDataMessage)
  {
    var d := Decide(h, req, unescape);
    if d.Encode? {
      var r := QrService.Generate(encode, d.payload, d.size);
      if r.Failure? {
        var e := encode(d.payload, d.size).error;
        assert r.error == QrService.EncodeFailurePrefix + e;
        assert |r.error| > |QrService.EmptyDataMessage|;
      }
    }
  }

  /** `NewHandler` applied twice is `NewHandler` applied once. */
  lemma NewHandlerIdempotent(cfg: HandlerConfig)
    ensures NewHandler(NewHandler(cfg)) == NewHandler(cfg)
  {
  }
}
