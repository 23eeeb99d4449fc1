# Server-side rendering entry point of the Vue Hacker News tutorial

This project models the three pieces of logic that
`tutorials/2-Packages-Plugins-for-Better-User-Experience/server.js` owns itself,
around the Express and vue-server-renderer calls it wires together:

- **Template splitting** (`parseIndex`): the HTML template produced by the
  bundler is cut at the first `<!-- APP -->` marker into a `head` and a `tail`.
  The model follows JavaScript's `String.prototype.indexOf` and `slice`
  exactly (module `Js`), including what happens when the marker is missing:
  `indexOf` gives -1, which the code uses unchecked, so the head is
  `slice(0, -1)` (the template minus its last character) and the tail is
  `slice(11)`.
- **Static-file cache lifetime** (the `maxAge` option of `serve`):
  `cache && isProd ? 60 * 60 * 24 * 30 : 0`, with JavaScript truthiness and
  `&&` written out. `express.static` reads a numeric `maxAge` in
  milliseconds and sends `max-age` in whole seconds, so the production value
  as written is 2592 seconds, not thirty days (see "## Findings"). None of the
  four mounts passes `cache`, so all of them are served with lifetime 0 in
  both modes.
- **The catch-all page route** (`app.get('*')`): a `Server` object holds the
  process-wide state (has a renderer been built, the template halves), and
  `Server.Handle` builds a `Response` (status code, headers, written fragments,
  finished flag). `Server.Render` then runs through the events of the render
  stream — chunks, end, error — handing each to the listener methods
  `OnData`, `OnEnd` and `OnError`, which do what the four stream listeners do;
  the one-shot `once('data')` listener is kept as a `headWritten` flag.
  `Handle` is proved equal to `Expected`, a closed form of the response: the
  chunks before the first `End` or `Error` are streamed behind the head, and
  that event decides the ending (state script and tail; 404 body; 500 body and
  a log entry). A listener that reads a half of a template that has not been
  loaded yet throws, and `Handle` then reports `threw`. The lemmas beside it
  state the route's behaviour for each kind of stream.

Modules: `Js` (js.dfy), `Template` (template.dfy), `StaticFiles`
(static_files.dfy), `Handler` (handler.dfy).

A render error after chunks were written does not replace that output: the
404 or 500 body is appended to what was already written, and no tail follows.

## Model

| member | source | states |
|---|---|---|
| `Js.Truthy` | tutorials/2-Packages-Plugins-for-Better-User-Experience/server.js:55 | a value tests false exactly when it is undefined, null, false, 0 or the empty string; every other value, every object included, tests true |
| `Js.IndexOfFrom` | tutorials/2-Packages-Plugins-for-Better-User-Experience/server.js:47 | the result is -1 or an occurrence at or after the start position, and no occurrence lies between the start and the result (none at all when -1) |
| `Js.IndexOf` | tutorials/2-Packages-Plugins-for-Better-User-Experience/server.js:47 | -1 exactly when the marker does not occur; otherwise the marker occurs at the result and nowhere before it |
| `Js.RelativeIndex` | tutorials/2-Packages-Plugins-for-Better-User-Experience/server.js:49-50 | a `slice` argument within the string is kept, a negative one counts from the end, and the result is clamped to [0, length] |
| `Js.Slice` | tutorials/2-Packages-Plugins-for-Better-User-Experience/server.js:49 | `slice(start, end)` is the run of characters from the relative start to the relative end, empty when the end does not lie after the start; within bounds it is `s[start..end]` |
| `Js.SliceFrom` | tutorials/2-Packages-Plugins-for-Better-User-Experience/server.js:50 | `slice(start)` is the string from the relative start to its end |
| `Js.And` | tutorials/2-Packages-Plugins-for-Better-User-Experience/server.js:55 | `a && b` is truthy exactly when both operands are; it is `a` itself when `a` is falsy and `b` itself otherwise |
| `Js.Get` | tutorials/2-Packages-Plugins-for-Better-User-Experience/server.js:101 | a property read needs a value other than null/undefined; an own property of an object yields its value, anything else yields undefined |
| `Js.StrictEqualsString` | tutorials/2-Packages-Plugins-for-Better-User-Experience/server.js:101 | `v === '404'` holds exactly for the string value "404": no coercion of numbers or other values |
| `Template.ParseIndex` | tutorials/2-Packages-Plugins-for-Better-User-Experience/server.js:45-52 | the head is a prefix and the tail a suffix of the template; with a marker, the head ends where the first marker starts and head, marker and tail make up the whole length |
| `Template.ParseIndexSplitsAtFirstMarker` | tutorials/2-Packages-Plugins-for-Better-User-Experience/server.js:45-51 | with a marker present, `head + marker + tail` is the template, the head is a prefix of the template and holds no marker |
| `Template.ParseIndexWithoutMarker` | tutorials/2-Packages-Plugins-for-Better-User-Experience/server.js:47-50 | without a marker, the head is the template minus its last character (empty for an empty template) and the tail is the template from index 11 (empty for 11 characters or fewer) |
| `Template.ParseIndexRoundTripIff` | tutorials/2-Packages-Plugins-for-Better-User-Experience/server.js:45-51 | putting the halves back around the marker gives the template exactly when the template holds a marker |
| `Template.ParseIndexKeepsLaterMarkers` | tutorials/2-Packages-Plugins-for-Better-User-Experience/server.js:47-50 | only the first marker splits: any marker starting at or after the end of the first one is still in the tail |
| `StaticFiles.MaxAge` | tutorials/2-Packages-Plugins-for-Better-User-Experience/server.js:54-56 | the `maxAge` option is the literal `60 * 60 * 24 * 30` (2592000, read as milliseconds) exactly when `cache` is truthy and the mode is production, and 0 exactly otherwise |
| `StaticFiles.HeaderSeconds` | tutorials/2-Packages-Plugins-for-Better-User-Experience/server.js:54-56 | a millisecond `maxAge` reaches clients as the whole seconds it holds |
| `StaticFiles.ProductionLifetimeAsWritten` | tutorials/2-Packages-Plugins-for-Better-User-Experience/server.js:55 | as written, a cached production mount sends `max-age` 2592, under an hour and short of thirty days |
| `StaticFiles.IntendedMaxAge` | tutorials/2-Packages-Plugins-for-Better-User-Experience/server.js:55 | with the factor 1000, a cached production mount sends thirty days in seconds, and 0 otherwise |
| `StaticFiles.MountsNeverCache` | tutorials/2-Packages-Plugins-for-Better-User-Experience/server.js:62-65 | the four static mounts pass no `cache`, so each is served with lifetime 0 in either mode, as written and as intended |
| `Handler.PageHeaders` | tutorials/2-Packages-Plugins-for-Better-User-Experience/server.js:72-73 | a rendered page carries exactly the `Content-Type: text/html` and `Server` headers |
| `Handler.IsNotFound` | tutorials/2-Packages-Plugins-for-Better-User-Experience/server.js:101 | `err && err.code === '404'` holds exactly for an object whose own `code` is the string "404" |
| `Handler.NotFoundOnlyForStringCode` | tutorials/2-Packages-Plugins-for-Better-User-Experience/server.js:101 | a not-found needs the string "404" as `code`: not null, undefined, a bare string or a numeric code |
| `Handler.Streamed` | tutorials/2-Packages-Plugins-for-Better-User-Experience/server.js:79-85 | what the two `data` listeners write: nothing without chunks, otherwise the head once, then the chunks in order |
| `Handler.StateScript` | tutorials/2-Packages-Plugins-for-Better-User-Experience/server.js:89-94 | the state script is the opening tag and assignment, the serialized state, then the closing tag |
| `Handler.InitialStateFragments` | tutorials/2-Packages-Plugins-for-Better-User-Experience/server.js:89-95 | the `end` listener writes one script fragment when the initial state is truthy and none otherwise |
| `Handler.Settle` | tutorials/2-Packages-Plugins-for-Better-User-Experience/server.js:79-109 | once the stream stopped after some chunks: the page headers; thrown exactly for an `End` without template halves; finished exactly when an end or error arrived and nothing threw |
| `Handler.Expected` | tutorials/2-Packages-Plugins-for-Better-User-Experience/server.js:67-110 | the closed form of the route: without a renderer the finished placeholder answer; with one, the page headers on every answer, the rest as `Settle` decides |
| `Handler.NotReadyAnswersPlaceholder` | tutorials/2-Packages-Plugins-for-Better-User-Experience/server.js:68-70 | with no renderer, the response ends with exactly the placeholder body, status 200, no header set, nothing logged |
| `Handler.RenderedPage` | tutorials/2-Packages-Plugins-for-Better-User-Experience/server.js:72-96 | chunks then end: status 200, the page headers, the head once before the first chunk (not at all without chunks), the chunks in order, the state script when the initial state is truthy, the tail last, response finished |
| `Handler.RenderedPageBody` | tutorials/2-Packages-Plugins-for-Better-User-Experience/server.js:79-96 | the body of such a page is `head + c1 + … + cn`, then the state script if any, then `tail`; an empty stream gives only the tail (and script) |
| `Handler.FailedRender` | tutorials/2-Packages-Plugins-for-Better-User-Experience/server.js:100-109 | chunks then error: what was written stays, no tail follows; a not-found error gives status 404 and the not-found body, any other gives 500, the error body and one log entry with the URL and the error |
| `Handler.UnfinishedRender` | tutorials/2-Packages-Plugins-for-Better-User-Experience/server.js:79-85 | a stream that neither ends nor fails leaves the response open with status 200 and the head and chunks written |
| `Handler.MissingTemplate` | tutorials/2-Packages-Plugins-for-Better-User-Experience/server.js:79-109 | a renderer without template halves: a first chunk throws with nothing written; a first `End` writes the state script and throws on the tail, leaving the response open; a first `Error` gets its usual 404 or 500 answer, and only the 500 is logged |
| `Handler.LaterEventsIgnored` | tutorials/2-Packages-Plugins-for-Better-User-Experience/server.js:87-109 | events after the first end or error do not change the response, with or without a renderer and template halves |
| `Handler.Response.constructor` | tutorials/2-Packages-Plugins-for-Better-User-Experience/server.js:67 | a fresh response has status 200, no headers, nothing written, and is open |
| `Handler.Response.SetHeader` | tutorials/2-Packages-Plugins-for-Better-User-Experience/server.js:72-73 | `res.setHeader` before any output sets that header and changes nothing else |
| `Handler.Response.Write` | tutorials/2-Packages-Plugins-for-Better-User-Experience/server.js:84 | `res.write` appends one fragment and leaves the response open |
| `Handler.Response.Status` | tutorials/2-Packages-Plugins-for-Better-User-Experience/server.js:102 | `res.status` sets the status code and changes nothing else |
| `Handler.Response.End` | tutorials/2-Packages-Plugins-for-Better-User-Experience/server.js:96 | `res.end(data)` appends the last fragment and finishes the response |
| `Handler.Server.OnData` | tutorials/2-Packages-Plugins-for-Better-User-Experience/server.js:79-85 | an emitted chunk: the head is written before the first chunk only, then the chunk; reading the head of missing halves throws before anything is written |
| `Handler.Server.OnEnd` | tutorials/2-Packages-Plugins-for-Better-User-Experience/server.js:87-98 | the state script when there is a state, then the tail, which finishes the response; reading the tail of missing halves throws after the script |
| `Handler.Server.OnError` | tutorials/2-Packages-Plugins-for-Better-User-Experience/server.js:100-109 | a not-found error ends the response with 404 and its body and logs nothing; any other ends it with 500 and its body and logs the URL and the error |
| `Handler.Server.Handle` | tutorials/2-Packages-Plugins-for-Better-User-Experience/server.js:67-77 | a fresh response whose status, headers, fragments, finished flag, log and thrown flag are those of the closed form `Expected`, for a ready renderer and for one not built yet |
| `Handler.Server.Render` | tutorials/2-Packages-Plugins-for-Better-User-Experience/server.js:77-109 | the listeners, run over the events until the first end or error, leave the response, log and thrown flag of `Expected` for a ready renderer |
| `Handler.Server.Production` | tutorials/2-Packages-Plugins-for-Better-User-Experience/server.js:18-21 | in production the renderer is ready and the template halves are `ParseIndex` of the template file |
| `Handler.Server.Development` | tutorials/2-Packages-Plugins-for-Better-User-Experience/server.js:16-17 | in development both start unset |
| `Handler.Server.BundleUpdated` | tutorials/2-Packages-Plugins-for-Better-User-Experience/server.js:26-28 | a new bundle makes the renderer ready and leaves the template halves alone |
| `Handler.Server.IndexUpdated` | tutorials/2-Packages-Plugins-for-Better-User-Experience/server.js:29-31 | a new template replaces the halves by its `ParseIndex` and leaves the renderer alone |

## Left out

- Express routing, the `compression` and `serve-favicon` middleware, `express.static` file serving, `app.listen` and the port choice: library I/O; only the `maxAge` value handed to `express.static`, and the whole seconds it turns into, are modelled.
- vue-server-renderer's bundle rendering and the `lru-cache` options of `createRenderer`: the renderer is modelled as "built or not", and its output as a given list of stream events.
- `serialize-javascript`: the serializer is a function parameter of `Handle`, applied to the initial state; its escaping is not modelled.
- File reads (`fs.readFileSync`) and the development server: file contents are parameters of the `Server` constructors and callbacks; watching, rebuilding and the timing of callbacks against requests are not modelled.
- Handler.Server.Handle: an exception thrown out of a stream listener is recorded as `threw` and the route stops there; what vue-server-renderer and Express then do with the exception, the stream and the open response is their behaviour and is not modelled.
- StaticFiles.HeaderSeconds: does not model the static file server capping `maxAge` at one year before it turns it into seconds; every value this file hands over lies far below that cap.
- `Date.now` timing and the `console.log` of the request time; of the logging only the `console.error` lines of a failed render are modelled, as one log entry holding the URL and the error value.
- The `serverInfo` header value, read from the two packages' metadata at start-up, is a string parameter.
- Whether a status set after output was flushed reaches the client: the model records the response's status code field as `res.status` sets it.
- The render stream is taken to emit nothing after its end or error event, so writes after the end of the response never arise; HTTP header names are the two fixed ones, so their case-insensitivity plays no part.
- JavaScript numbers are integers here (no NaN, -0 or fractions), and strings are sequences of characters rather than UTF-16 code units, so `indexOf` and `slice` positions differ from JavaScript's for templates holding characters outside the Basic Multilingual Plane.

## Findings

| source | as written | input that shows it | evidently intended | confidence | as-written member | corrected member |
|---|---|---|---|---|---|---|
| tutorials/2-Packages-Plugins-for-Better-User-Experience/server.js:55 | `maxAge: cache && isProd ? 60 * 60 * 24 * 30 : 0`, a number that `express.static` reads as milliseconds | any truthy `cache` in production: `max-age` is 2592 seconds, about 43 minutes | `1000 * 60 * 60 * 24 * 30`, thirty days in milliseconds, as the `maxAge: 1000 * 60 * 15` of the renderer cache at line 40 is written | not executed | `StaticFiles.ProductionLifetimeAsWritten` | `StaticFiles.IntendedMaxAge` |
