# DevOps info service — Dafny model

The model covers the small HTTP info service in `app_python/app.py`. The service answers two routes:

- `GET /` returns the service identity, host facts, uptime, the current UTC time and an echo of the request.
- `GET /health` returns a liveness document.

Two registered handlers turn "not found" and "internal error" into JSON bodies.

The model has six modules:

- `Base`: `Option` and `Result`.
- `Digits`: decimal text of numbers. This is Python's `str(n)` and the zero-padded fields `strftime` writes, together with `ValueOf`, which reads both back.
- `Uptime`: `get_uptime_seconds` once the clock has been read. It computes whole hours and minutes, truncated, and the text `"<h> hours, <m> minutes"`. `ParseHuman` reads that text back.
- `Timestamp`: `iso_utc_now` once the clock has been read. A valid `datetime` is formatted with `%Y-%m-%dT%H:%M:%S.%f`, the last three characters are cut and `Z` is appended. `ParseStamp` reads the result back. It accepts only this fixed 24-character profile of the section 5.6 form of RFC 3339: three fraction digits and a literal `Z`. It does not check field ranges.
- `JsonValue`: the JSON documents. An object is a map from the service's fixed set of member names (`Key`) to values.
- `InfoService`:
  - the fallbacks for client address, `User-Agent` and CPU count;
  - the section builders and the two bodies;
  - the two error handlers;
  - `Dispatch`, the router's decision for a request, and `Handle`, which maps one request to its response.

Everything outside the program is an input:

- the elapsed whole seconds, `int(time.time() - START_TIME)`;
- the UTC clock reading, a valid `datetime`;
- the outcome of the host probes: their strings, or the text of an exception they raised;
- the connection peer, the header list, the method and the path.

Routing is the framework's, and `Dispatch` models what it decides for this application:

- The two `@app.get` routes accept GET only. HEAD or any other method on `/` or `/health` gets 405 `{"detail": "Method Not Allowed"}`, because no handler is registered for 405.
- `FastAPI(...)` also registers `/openapi.json`, `/docs`, `/docs/oauth2-redirect` and `/redoc`, which it serves itself for GET and HEAD.
- When no registered path matches, the router tries the path with its trailing slashes removed, or with one added. If a route is registered there, it answers 307 with that path.
- Otherwise it raises `HTTPException(404)`, whose text is `"404: Not Found"`, and the registered handler answers it.

## Model

| member | source | states |
|---|---|---|
| Uptime.GetUptime | app_python/app.py:39-51 | `seconds` is the elapsed whole seconds unchanged. `human` parses back as an hours/minutes pair that truncates the seconds: minutes below 60, and `h*3600 + m*60 <= s < h*3600 + m*60 + 60`. For every truncating split `(h, m)`, `human` is exactly `f"{h} hours, {m} minutes"`. |
| Uptime.HoursMinutes | app_python/app.py:45-47 | `seconds // 3600` and `(seconds % 3600) // 60` are a truncating split of the seconds, with minutes below 60. |
| Uptime.TruncatedSplitUnique | app_python/app.py:46-47 | Any truncating split of `s` equals `(s // 3600, (s % 3600) // 60)`. The text therefore names exactly one pair. |
| Uptime.UptimeMonotone | app_python/app.py:46-47 | A later reading never shows fewer hours, nor fewer minutes within the same hour. |
| Uptime.HumanRoundTrip | app_python/app.py:48-51 | `f"{hours} hours, {minutes} minutes"` parses back to exactly `(hours, minutes)`. |
| Uptime.ParseHumanExact | app_python/app.py:50 | Only the exact text `f"{h} hours, {m} minutes"` parses back as `(h, m)`. |
| Uptime.ParseHumanFields | app_python/app.py:50 | An accepted text is two canonical digit runs around `" hours, "` and `" minutes"`, and the result is their values. |
| Uptime.Reassemble | app_python/app.py:50 | A text cut at its two digit runs is those runs joined by the two words. |
| Uptime.ParseHumanLayout | app_python/app.py:50 | Any two canonical digit strings laid out as the human text parse back as their values. |
| Uptime.HoursRun | app_python/app.py:50 | In digits followed by `" hours, "`, the digit run stops where the word starts, and what follows the word is unchanged. |
| Uptime.LeadingDigitsOfDigits | app_python/app.py:50 | In a digit string followed by a non-digit, the run of leading digits is exactly that string. |
| Uptime.LeadingDigits | app_python/app.py:50 | Counts the leading digits: every counted character is a digit, and the next one, if any, is not. |
| Digits.Decimal | app_python/app.py:50 | `str(n)` is a non-empty digit string with no leading zero, except for `"0"` itself. |
| Digits.DecimalRoundTrip | app_python/app.py:50 | Reading `str(n)` back gives `n`. |
| Digits.DecimalInjective | app_python/app.py:50 | Two numbers have the same `str` exactly when they are equal. |
| Digits.LeadingDigitPositive | app_python/app.py:50 | A non-empty digit string that does not start with `0` denotes at least one. |
| Digits.CanonicalIsDecimal | app_python/app.py:50 | Every digit string without a leading zero (other than `"0"`) is `str` of its value. |
| Digits.Padded | app_python/app.py:58 | A `%0Nd` field has exactly N digits. |
| Digits.PaddedRoundTrip | app_python/app.py:58 | Reading a zero-padded field back gives the number. |
| Digits.DivUnique | app_python/app.py:46-47 | The `//` quotient is the only one whose remainder lies in `[0, d)`. |
| Digits.SixDigitPrefix | app_python/app.py:58 | The first three digits of the six-digit `%f` field are `microsecond // 1000` padded to three digits. Cutting never rounds. |
| Timestamp.DaysInMonth | app_python/app.py:57 | Every month has 28 to 31 days. |
| Timestamp.Strftime | app_python/app.py:58 | The `%Y-%m-%dT%H:%M:%S.%f` text of a valid datetime is 26 characters long. |
| Timestamp.IsoUtc | app_python/app.py:58 | The timestamp is 24 characters long and ends in `Z`. |
| Timestamp.IsoUtcPieces | app_python/app.py:58 | The timestamp is the padded date and time fields, then three millisecond digits `microsecond // 1000`, then `Z`. |
| Timestamp.LayoutFields | app_python/app.py:58 | Each field of the layout sits at its fixed position, with `-`, `T`, `:`, `.` and `Z` in between. |
| Timestamp.IsoUtcShape | app_python/app.py:53-58 | Every timestamp has the shape `YYYY-MM-DDTHH:MM:SS.mmmZ`. |
| Timestamp.MillisecondField | app_python/app.py:58 | The millisecond digits hold `microsecond // 1000`. |
| Timestamp.IsoUtcRoundTrip | app_python/app.py:53-58 | Parsing the timestamp gives the clock reading truncated to the millisecond. |
| Timestamp.IsoUtcSameIffSameMillisecond | app_python/app.py:58 | Two clock readings give the same text exactly when they agree to the millisecond. |
| JsonValue.NamesDistinct | app_python/app.py:87-123 | Two keys have the same member name exactly when they are the same key. |
| JsonValue.SignatureIdentifiesKey | app_python/app.py:87-123 | The length and first two characters of each member name already determine its key. |
| InfoService.ClientAddress | app_python/app.py:73-79 | The address is the peer's host when there is a peer with a non-empty host, and `"unknown"` otherwise. It is never empty. |
| InfoService.CpuCountOrZero | app_python/app.py:69 | `os.cpu_count() or 0` is the detected count, or 0 when the count is undetermined. It is always an integer, never null. |
| InfoService.HeaderValue | app_python/app.py:103 | The header lookup finds nothing exactly when no stored name equals the lower-cased looked-up name. Otherwise it yields the first matching header's value. |
| InfoService.Lower | app_python/app.py:103 | ASCII lower-casing keeps the length and maps each character on its own. |
| InfoService.UserAgentHeaderIsLower | app_python/app.py:103 | The looked-up name `"user-agent"` is already lower case. |
| InfoService.AgentOf | app_python/app.py:103 | `user_agent` is the first `user-agent` header's value, even an empty one. It falls back to `"unknown"` only when no such header exists. |
| InfoService.EndpointsJson | app_python/app.py:107-110 | The endpoints list has one object per advertised endpoint, in order. |
| InfoService.EndpointJson | app_python/app.py:108-109 | Each endpoint object has exactly the keys `path`, `method` and `description`, holding the endpoint's three values. |
| InfoService.ServiceJson | app_python/app.py:88-93 | The `service` section has exactly `name`, `version`, `description` and `framework`. They hold the configured name, version and description, and `"FastAPI"`. |
| InfoService.DefaultServiceSection | app_python/app.py:25-28 | With no environment overrides, `service` holds `"devops-info-service"`, `"1.0.0"`, `"DevOps course info service"` and `"FastAPI"`. |
| InfoService.SystemInfo | app_python/app.py:60-71 | The `system` section has exactly its six keys. `hostname`, `platform`, `platform_version`, `architecture` and `python_version` hold the probe strings, and `cpu_count` is the integer fallback. |
| InfoService.RuntimeJson | app_python/app.py:95-100 | The `runtime` section has exactly its four keys. `timezone` is `"UTC"`, and the uptime and time values are the ones the handler read. |
| InfoService.RequestSection | app_python/app.py:101-106 | The `request` section has exactly `client_ip`, `user_agent`, `method` and `path`, holding the given values. |
| InfoService.RequestJson | app_python/app.py:101-106 | The `request` section echoes the client address fallback, the agent fallback, and the request's method and path. |
| InfoService.RootObject | app_python/app.py:87-111 | The root body has exactly the five top-level keys, each holding its section. |
| InfoService.RootBody | app_python/app.py:86-111 | The root body has exactly `service`, `system`, `runtime`, `request` and `endpoints`, each built from its own inputs. |
| InfoService.RootBodyFields | app_python/app.py:88-106 | Each `data[section][key]` a client reads in the service, system, runtime and request sections holds its value: the configured name, version and description, `"FastAPI"`, the five probe strings, the CPU-count fallback, the uptime, the time, `"UTC"`, the address, the agent, the method and the path. |
| InfoService.RootBodyTexts | app_python/app.py:95-106 | The string members of the runtime and request sections hold the uptime text, the time text, `"UTC"`, the method and the path. |
| InfoService.HealthBody | app_python/app.py:118-123 | The health body has exactly `status`, `timestamp` and `uptime_seconds`, with `status` equal to `"healthy"`. |
| InfoService.SuccessHasNoError | app_python/app.py:87-123 | Neither success body carries the `message` or `error` members of the error bodies. |
| InfoService.ErrorResponse | app_python/app.py:125-137 | Not-found gives 404 and internal error gives 500, each in both directions. The body has exactly `message` and `error`. `message` is `"Endpoint not found"` or `"Internal server error"`, and `error` is the failure's text. |
| InfoService.Handle | app_python/app.py:33-37 | The status is 200, 307, 404, 405 or 500. 200 exactly when `/health` or a framework page is served, or `/` is served and the probes succeed. 307 exactly when the router redirects, to its target. 404 exactly when there is no route. 405 exactly when the method is not allowed. 500 exactly when `/` is served and a probe fails. A 200 JSON body has the root or health key set, and a 404 or 500 body has the error key set. |
| InfoService.StripSlashes | app_python/app.py:33-37 | The result is a prefix of the path that does not end in `/`, and everything removed is `/`. |
| InfoService.RouteFor | app_python/app.py:81-113 | `/` and `/health` fully match only GET, each yielding its own handler. The four framework pages fully match GET and HEAD. Any full match is on a registered path. |
| InfoService.Dispatch | app_python/app.py:33-37 | Serve exactly when a route fully matches. Not allowed exactly when the path is registered but the method is not accepted. Redirect exactly when the path is unregistered, is not `/`, and its slash variant is registered; the target is that variant. No route otherwise. |
| InfoService.UptimeReadsBack | app_python/app.py:39-51 | The uptime reading keeps the elapsed seconds, and its text parses back as `(s // 3600, (s % 3600) // 60)`. |
| InfoService.RootResponse | app_python/app.py:81-111 | `GET /` with working probes gives 200, and the body is exactly `RootBody` of the configuration, the probe results, the uptime reading, the clock text and the request. So every section, including `service`, `system`, `client_ip`, `user_agent` and `endpoints`, holds what its builder states. `uptime_seconds` equals the elapsed seconds. `uptime_human` parses back to its hours and minutes. `current_time` parses back to the clock truncated to the millisecond. `timezone` is `"UTC"`, and `method` and `path` echo the request. |
| InfoService.RootEchoesAgent | app_python/app.py:101-105 | A `GET /` sent with a `user-agent` header echoes that agent, `"GET"` and `"/"`. |
| InfoService.HealthResponse | app_python/app.py:113-123 | `GET /health` gives 200 whatever the probes would do, and the body is exactly `HealthBody` of the clock text and the uptime reading. The body is `"healthy"`, carries the elapsed seconds, and has a timestamp that parses back to the clock truncated to the millisecond. |
| InfoService.ProbeFailure | app_python/app.py:132-137 | A failing probe on `GET /` reaches the 500 handler with the failure's text as `error`. |
| InfoService.UnregisteredPathNotFound | app_python/app.py:125-130 | A path registered neither as it is nor in its slash variant gives 404, with `message` `"Endpoint not found"` and `error` `"404: Not Found"`, whatever the method. |
| InfoService.NoSuchEndpoint | app_python/tests/test_app.py:48-52 | `GET /no-such-endpoint` gives 404 with `message` `"Endpoint not found"`. |
| InfoService.SlashVariantRedirects | app_python/app.py:33-37 | An unregistered path whose slash variant is registered is answered 307 with that variant, whatever the method. |
| InfoService.HealthSlashRedirects | app_python/app.py:113 | `/health/` and `/health//` are redirected to `/health`. |
| InfoService.OtherMethodNotAllowed | app_python/app.py:81 | Any method other than GET on `/` or `/health`, HEAD included, gives 405 `{"detail": "Method Not Allowed"}`. |
| InfoService.FrameworkPagesServed | app_python/app.py:33-37 | GET or HEAD on one of the four framework pages is served with 200 by the framework, whatever the probes would do. |
| InfoService.AdvertisedEndpointsRouted | app_python/app.py:81-82 | Every endpoint in the `endpoints` list is routed, and every request served by one of the two handlers is advertised with its path and method. |

## Left out

- The clock and float arithmetic are inputs: `time.time()`, the float `delta` and `int(delta)`. Elapsed time is taken as whole non-negative seconds, and the clock reading as a valid UTC `datetime`.
- The host probes are inputs. `socket.gethostname`, the `platform` calls and `os.cpu_count` are foreign calls; their results are opaque strings and an optional count, or the text of an exception.
- Logging, reading the environment (`HOST`, `PORT`, `DEBUG`, `SERVICE_*`) and `int(PORT)` parsing are I/O and configuration plumbing. The configuration is a `Config` record, and `DefaultConfig` holds the values used when the environment sets none. `DefaultServiceSection` states what the `service` section then holds.
- The server is not modelled: the uvicorn lifecycle, async execution, the `FastAPI(...)` metadata and the `__main__` block.
- InfoService.Handle: the framework's pages (`/openapi.json`, `/docs`, `/docs/oauth2-redirect`, `/redoc`) are a `Page` carrying only their path. Their content, an OpenAPI document or HTML generated by the framework, is not modelled.
- InfoService.Handle: a redirect carries only the target path. The real `Location` header is an absolute URL built from the request's scheme, host, the target path and the query string.
- InfoService.Handle: HEAD on a framework page is modelled with the same `Page` as GET. The server drops the body on the wire, which is not modelled.
- InfoService.UnregisteredPathNotFound: covers only paths whose slash variant is not registered either. The others are redirected, as `SlashVariantRedirects` states.
- The routing of a mounted root path (`root_path`), of WebSocket requests and of the framework's internal exceptions other than 404 and 405 is not modelled.
- JSON member order and serialisation are not modelled. Objects are maps, so the model keeps key sets and values but not the insertion order `json.dumps` writes.
- Timestamp.Strftime: for years below 1000, `%Y` is rendered as four zero-padded digits, which is what the timestamp shape assumes. Some C libraries render `%Y` unpadded for such years; that variant is not modelled.
- InfoService.AgentOf: only the looked-up name is lower-cased. Stored header names are compared exactly as the server delivered them, and the model assumes the server delivers them in lower case, as ASGI servers do.
- `pulumi/__main__.py` is not part of this model. It is declarative cloud-resource wiring, and its only function is a lookup on SDK objects.
