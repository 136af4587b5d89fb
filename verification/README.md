# QR Go: request validation and configuration, modelled in Dafny

QR Go is a small HTTP service that turns text into a QR-code PNG. The QR
matrix and the PNG come from a third-party encoder. The service's own
logic is three things:

- how configuration is read from the environment and repaired;
- how the logger's level and format options are parsed;
- how the `/generate`, `/health` and `/` handlers validate a request and
  choose a response.

This project models that logic as pure Dafny functions and proves
properties of them.

| file | module | models |
|---|---|---|
| `wrappers.dfy` | `Wrappers` | `Option` and `Result`, standing in for Go's `(value, error)` pairs |
| `decimal.dfy` | `Decimal` | `strconv.ParseInt(s, 10, bits)`, `strconv.Atoi` and `strconv.Itoa` |
| `text.dfy` | `Text` | `strings.TrimSpace` and `strings.ToLower` |
| `config.dfy` | `Config` | `LoadConfig` and the `getEnv*` helpers, over an environment given as a map |
| `logger.dfy` | `Logger` | `parseLevel` and the format switch of `New` |
| `qr_service.dfy` | `QrService` | `service.Generate`: the empty-data guard around the encoder |
| `handler.dfy` | `Handler` | `NewHandler`, `parseSize`, `Generate`, `HealthCheck` and `Root` |
| `startup.dfy` | `Startup` | how `main` passes the loaded configuration to the logger and the handler |

`Handler.Generate` has two stages. `Handler.Decide` runs the checks in
source order: method, then payload, then size. It returns either a
rejection (status and message) or `Encode(payload, size)`. `Generate` then
calls the service only in the `Encode` case.

The pieces the service takes from outside are passed in as function
parameters:

- `url.QueryUnescape` is an `Unescaper`;
- `time.ParseDuration` is a `DurationParser`;
- the QR service is a `QrService.Service`;
- the third-party `qrcode.Encode` is a `QrService.Encoder`.

Go strings and byte slices are both modelled as Dafny `string`, a
sequence of Unicode code points. Where Go counts bytes, the model counts
the UTF-8 encoding: `Text.Utf8Length` is the number of bytes a string
takes, and the request-body limit is checked against it. Emptiness is the
same in both views. Integers follow a 64-bit platform: `int` and `int64`
both hold the signed 64-bit range.

In three places the code does less than its own text suggests. The model
follows the code:

- The descriptor that `Root` returns lists the endpoint as `"GET  /"`
  (`internal/transport/http/handler.go:142`), but `Root` checks only the
  path, so `/` answers every method
  (`internal/transport/http/handler.go:131-135`).
- The invalid-size message says a size "Must be between" the configured
  bounds (`internal/transport/http/handler.go:89`), but a request without
  `size` uses the configured default size without checking it against
  them (`internal/transport/http/handler.go:108-111`).
  `DEFAULT_QR_SIZE=1000` with the default maximum of 512 makes the service
  encode at 1000 pixels. `Handler.DefaultSizeBypassesBounds` shows this
  case.
- The same message promises every size between the bounds, but when
  `MinQRSize <= 0` an in-range size of `0` or less is still rejected:
  `parseSize` uses 0 as its error value
  (`internal/transport/http/handler.go:113-116`), and `Generate` rejects
  every size `<= 0` (`internal/transport/http/handler.go:87-91`).

## Model

| member | source | states |
|---|---|---|
| Decimal.ParseInt | internal/config/config.go:81-88 | a value is read only when the text, after one optional `+` or `-`, is a non-empty run of decimal digits; the value fits the signed bit width, and its sign agrees with the leading sign character |
| Decimal.PlusSignIgnored | internal/config/config.go:81-88 | a leading `+` before the digits reads the same value as no sign |
| Decimal.LeadingZeroIgnored | internal/config/config.go:81-88 | a leading zero after the optional sign does not change the value read |
| Decimal.NegativeZero | internal/config/config.go:81-88 | `-0` reads as 0 |
| Decimal.Atoi | internal/transport/http/handler.go:112 | `Atoi` reads only values that fit Go's 64-bit `int` |
| Decimal.FormatInt | internal/transport/http/handler.go:89 | `Itoa` writes a non-empty string of digits and `-` only, so a space can mark where it ends |
| Decimal.ParseFormatRoundTrip | internal/transport/http/handler.go:89 | reading back what `Itoa` wrote gives the same number, at any width the number fits |
| Decimal.FormatParseRoundTrip | internal/transport/http/handler.go:112 | for canonical text (no `+`, no leading zeros, no `-0`), writing out the parsed number gives the same text |
| Text.LeadingSpace | internal/logger/logger.go:39 | the amount `TrimSpace` removes in front: every rune before it is white space, and the rune at it is not |
| Text.KeptLength | internal/logger/logger.go:39 | the amount `TrimSpace` keeps before the trailing white space: every rune from it on is white space, and the rune before it is not |
| Text.LeadingSpaceUnique | internal/logger/logger.go:39 | the first non-space position is the only count that meets `LeadingSpace`'s contract, so that contract fixes the leading white space exactly |
| Text.KeptLengthUnique | internal/logger/logger.go:39 | the end of the last non-space rune is the only length that meets `KeptLength`'s contract |
| Text.TrimSpace | internal/logger/logger.go:39 | the trimmed string starts and ends with non-space and is no longer than the input |
| Text.TrimSpaceRemovesOnlySpace | internal/logger/logger.go:39 | `TrimSpace` keeps one contiguous part of its input, and everything removed before and after it is white space |
| Text.Utf8Width | internal/transport/http/handler.go:68-70 | a code point takes one to four bytes in UTF-8, and exactly one when it is ASCII |
| Text.Utf8Length | internal/transport/http/handler.go:68-70 | the number of bytes in a string's UTF-8 encoding: at least one and at most four per code point |
| Text.AsciiLength | internal/transport/http/handler.go:68-70 | a string of ASCII characters takes exactly one byte per character |
| Text.LowerChar | internal/logger/logger.go:26 | `A`-`Z` become `a`-`z`, U+0130 becomes `i`, U+212A becomes `k`, and every other rune is kept |
| Text.ToLower | internal/logger/logger.go:26 | lower-casing keeps the length and lowers each rune on its own, as `LowerChar` states |
| Text.ToLowerAscii | internal/logger/logger.go:26 | on ASCII text, exactly the capitals `A`-`Z` change, each to its small letter |
| Text.UpperCaseWord | internal/logger/logger.go:26 | a word in capitals normalises to the same word in small letters |
| Text.TrimSpaceIgnoresPadding | internal/logger/logger.go:39 | white space added on either side does not change `TrimSpace` |
| Text.TrimSpaceIdempotent | internal/logger/logger.go:39 | trimming twice gives the same result as trimming once |
| Text.LowerCommutesWithTrim | internal/logger/logger.go:39 | lower-casing and trimming give the same result in either order |
| Text.CanonicalIdempotent | internal/logger/logger.go:39 | normalising an option twice (trim, then lower-case) gives the same result as normalising once |
| Text.CanonicalIgnoresCase | internal/logger/logger.go:26 | two options that lower-case alike normalise alike |
| Logger.ParseLevel | internal/logger/logger.go:38-48 | `debug` gives Debug, `warn` or `warning` gives Warn, `error` gives Error, each after normalisation and in both directions; every other string, the empty one included, gives Info |
| Logger.LevelOf | internal/logger/logger.go:39-48 | on a normalised option: `debug`, `warn`/`warning` and `error` select their level, in both directions; anything else gives Info |
| Logger.UpperCaseDebug | internal/logger/logger.go:38-48 | the option `DEBUG` selects the debug level |
| Logger.PaddedUpperCaseJson | internal/logger/logger.go:26-28 | the format option ` JSON ` selects the JSON handler |
| Logger.SelectFormat | internal/logger/logger.go:26-31 | the JSON handler is chosen exactly when the normalised format is `json`; every other string gives text |
| Logger.DerivedFormatNames | internal/logger/logger.go:26-31 | the names `json` and `text` that `LoadConfig` derives choose the JSON and the text handler |
| Logger.New | internal/logger/logger.go:20-34 | the logger's level comes from the level option, its handler is JSON exactly for a normalised `json`, and `env` is carried through |
| Logger.LevelNameRoundTrip | internal/logger/logger.go:38-48 | every level can be selected by some option |
| Logger.ParseLevelNormalises | internal/logger/logger.go:39 | `parseLevel(s) == parseLevel(lower(trim(s)))` |
| Logger.ParseLevelIgnoresPaddingAndCase | internal/logger/logger.go:39 | surrounding white space and letter case never change the chosen level |
| Logger.SelectFormatIgnoresPaddingAndCase | internal/logger/logger.go:26 | surrounding white space and letter case never change the chosen format |
| Config.GetEnv | internal/config/config.go:65-70 | a set variable's value is returned as it is, even when empty; the fallback is returned only when the variable is unset |
| Config.GetEnvInt | internal/config/config.go:90-97 | the fallback is returned when the variable is unset or is not a decimal `int`; otherwise the parsed value is returned |
| Config.GetEnvInt64 | internal/config/config.go:81-88 | the same rule as `GetEnvInt`, read at 64 bits |
| Config.GetEnvDuration | internal/config/config.go:72-79 | the same fallback rule, using the duration parser |
| Config.Normalise | internal/config/config.go:47-61 | afterwards min <= max, and {min, max} is the same multiset as before; an ordered pair is unchanged; the default size is positive, and is replaced by 256 exactly when it was <= 0; an empty log format becomes `json` exactly for production/prod/staging/live, `text` otherwise; a non-empty log format is kept; no other field changes |
| Config.LoadConfig | internal/config/config.go:31-63 | a loaded configuration always has min <= max, a positive default size and a non-empty log format |
| Config.UnsetVariablesGiveDefaults | internal/config/config.go:32-46 | an empty environment gives port 8080, timeouts 5/10/2/60/5 s, body limit 1048576, sizes 64/512/256, env `development`, level `info` and format `text` |
| Config.ReadEnvironment | internal/config/config.go:32-46 | each field is read from its own variable, with its own default, as listed at `internal/config/config.go:33-45`: `PORT`, `READ_TIMEOUT`, `WRITE_TIMEOUT`, `READ_HEADER_TIMEOUT`, `IDLE_TIMEOUT`, `SHUTDOWN_TIMEOUT`, `MAX_BODY_SIZE`, `MIN_QR_SIZE`, `MAX_QR_SIZE`, `DEFAULT_QR_SIZE`, `ENV`, `LOG_LEVEL` and `LOG_FORMAT` |
| Config.GetEnvInt64RoundTrip | internal/config/config.go:81-88 | a 64-bit integer written in decimal into a variable is read back exactly |
| Config.GetEnvIntRoundTrip | internal/config/config.go:90-97 | an integer written in decimal into a variable is read back exactly |
| Config.UnreadableIntIsUnset | internal/config/config.go:90-97 | a value that does not parse gives the same result as an unset variable |
| Config.EmptyLogFormatIsUnset | internal/config/config.go:45-61 | `LOG_FORMAT=""` loads the same configuration as leaving `LOG_FORMAT` unset |
| QrService.Generate | internal/qr/service.go:23-36 | empty data fails with "data cannot be empty"; otherwise the encoder's PNG is returned, or its error with the "failed to encode QR code: " prefix |
| Handler.NewHandler | internal/transport/http/handler.go:28-37 | a default size <= 0 becomes 256; a positive one, and every other field, is kept |
| Handler.NewHandlerIdempotent | internal/transport/http/handler.go:28-31 | repairing an already repaired configuration changes nothing |
| Handler.LimitedRead | internal/transport/http/handler.go:68-79 | a non-empty body whose UTF-8 encoding has more bytes than the limit gives the too-large error (a negative limit counts as 0); any other body is read unchanged |
| Handler.SizeErrorMessage | internal/transport/http/handler.go:89 | the invalid-size message is the fixed prefix followed by the minimum and the maximum in decimal, separated by ` and ` |
| Handler.UnescapeOrRaw | internal/transport/http/handler.go:62-66 | the decoded content is used when decoding succeeds, and the raw content when it fails |
| Handler.ExtractPayload | internal/transport/http/handler.go:54-85 | GET with empty `content` gives 400 "Missing query parameter: content"; a POST body that is too large gives 413; any other read error gives 500; an empty body gives 400 "Request body is empty"; a non-empty body that was read is the payload, and a successful POST payload is always that non-empty body |
| Handler.ParseSize | internal/transport/http/handler.go:108-117 | `""` gives the default size without checking it against the bounds; any other string gives 0 or a value in [min, max], and gives that value exactly when it parses as an in-range integer; a non-integer gives 0 |
| Handler.Decide | internal/transport/http/handler.go:48-91 | a method other than GET or POST gives 405; an encode decision has an allowed method, size > 0, and for POST the non-empty body, for GET the decoded non-empty content; a rejection's status is 400, 405, 413 or 500 |
| Handler.Generate | internal/transport/http/handler.go:48-106 | every response is either a JSON error or a PNG; its status is 200, 400, 405, 413 or 500; a PNG response has type `image/png` |
| Handler.HealthCheck | internal/transport/http/handler.go:120-128 | GET gives 200 `{"status":"ok"}`; every other method gives 405 |
| Handler.Root | internal/transport/http/handler.go:131-148 | the service descriptor is returned exactly for the path `/`; every other path gives 404 |
| Handler.SizeMessageNamesRange | internal/transport/http/handler.go:89 | the invalid-size message can be parsed back to the configured (min, max) |
| Handler.OtherMethodsRejected | internal/transport/http/handler.go:49-52 | a method other than GET or POST gives the same 405 whatever the payload, size, configuration, decoder or service |
| Handler.PayloadErrorsPrecedeSize | internal/transport/http/handler.go:54-91 | a payload error is reported whatever `size` is, and the service is not called |
| Handler.EncodeExactlyWhenChecksPass | internal/transport/http/handler.go:49-93 | the service is called with (payload, size) if and only if the method is allowed, the payload is extracted, and the parsed size is that size and is positive |
| Handler.BadSizeNamesBounds | internal/transport/http/handler.go:87-91 | after a valid payload, a size result <= 0 gives 400, and the message names exactly the configured bounds |
| Handler.ServiceOutcomeReported | internal/transport/http/handler.go:93-101 | once the checks pass, a service error gives 500 with the service's message, and a success gives the PNG |
| Handler.RejectionIgnoresService | internal/transport/http/handler.go:48-93 | a rejected request's response does not depend on the service, and is the rejection's status and message |
| Handler.ValidPostReachesService | internal/transport/http/handler.go:67-93 | a POST with a non-empty body and an in-range positive size written in decimal calls the service with that body and size |
| Handler.ValidGetReachesService | internal/transport/http/handler.go:56-93 | a GET with non-empty content and an in-range positive decimal size calls the service with the decoded content and that size |
| Handler.MissingSizeUsesDefault | internal/transport/http/handler.go:108-111 | a POST with a non-empty body and no `size` calls the service with the handler's default size |
| Handler.DefaultSizeBypassesBounds | internal/transport/http/handler.go:108-111 | a default of 1000 with a maximum of 512 reaches the service unchecked |
| Handler.TooLargeRejected | internal/transport/http/handler.go:71-76 | a POST whose body read fails with the too-large error gives 413 "Request body too large", whatever `size` is |
| Handler.OversizedBodyRejected | internal/transport/http/handler.go:68-76 | a POST body of more than `MaxBodySize` UTF-8 bytes gives 413, whatever `size` is |
| Handler.LimitCountsBytes | internal/transport/http/handler.go:68-76 | the limit counts bytes, not characters: a one-character body `é` (two bytes) is too large for a one-byte limit |
| Handler.ServiceGuardUnreachableForPost | internal/qr/service.go:24-26 | for POST, the handler's empty-body check runs first, so the service's empty-data error never reaches the client |
| Startup.StartHandler | cmd/api/main.go:33-38 | the handler built at start-up has min <= max and a positive default, and `NewHandler`'s repair changes nothing after `LoadConfig` |
| Startup.StartLogger | cmd/api/main.go:24-28 | the logger gets its level from `LOG_LEVEL` (default `info`) and its `env` from `ENV`; a non-empty `LOG_FORMAT` chooses the format, and otherwise the JSON handler is chosen exactly for a production `ENV` |
| Startup.MissingSizeIsPositive | cmd/api/main.go:21-38 | at start-up, a request without `size` always gets a positive size |
| Startup.DerivedLogFormat | cmd/api/main.go:24-28 | with `LOG_FORMAT` unset or empty, the JSON handler is chosen exactly when `ENV` is production, prod, staging or live (exact, case-sensitive match) |
| Startup.ExplicitLogFormat | cmd/api/main.go:24-28 | a non-empty `LOG_FORMAT` alone decides the logger's format |
| Startup.DefaultLogLevel | cmd/api/main.go:24-28 | with `LOG_LEVEL` unset, the level is Info |

## Left out

- Server set-up, routing, goroutines, signal handling and graceful shutdown (`cmd/api/main.go`) are plumbing and concurrency. Only the field mapping from the loaded configuration is modelled.
- `qrcode.Encode`, the QR matrix and PNG encoding belong to a third-party library and are an opaque `Encoder` parameter. The Medium error-correction level is fixed inside it.
- `url.QueryUnescape` is an opaque `Unescaper` parameter. Because of this, the model cannot show that decoding non-empty content gives a non-empty payload. A GET can therefore reach the service with an empty payload in the model.
- Handler.LimitedRead: models `http.MaxBytesReader` plus `io.ReadAll` only for a body that arrives whole. Transport failures are the `BodyReadFailed` input, and the check on the error text is the `BodyTooLarge` outcome.
- A request body is a sequence of code points measured by its UTF-8 length, so a body that is not valid UTF-8 cannot be written down in the model.
- `time.ParseDuration` is an opaque `DurationParser` parameter. Durations are integers of nanoseconds.
- JSON encoding of bodies, response headers other than the content type, `writeJSONError`'s framing, and failed response writes are left out. A response is a status plus a message or bytes.
- Logging side effects and `slog` handler construction are left out. `Logger.New` returns the choices it makes.
- Text.ToLower: lower-cases `A`-`Z`, U+0130 and U+212A (the runes whose Go lower case is ASCII), and leaves every other rune unchanged. Go lower-cases all of Unicode. The difference cannot change which option matches, because every option name is ASCII. `Text.LowerChar` states the mapping for each of these runes.
- The 32-bit platform case, where Go's `int` has 32 bits, is left out. `IntSize` is 64.
