# platy-paste frontend core, modelled in Dafny

This project models the logic of the platy-paste web client that does not
depend on a browser. It covers these parts:

- the table of accepted document types and its lookups (`src/lib/types.ts`);
- the error values the client throws (`src/lib/errors.ts`);
- how the client builds its backend requests and reads the answers, for
  fetching and for uploading a paste (`src/lib/backend.ts`);
- how the new-paste page turns the result of fetching the backend's limits
  into page data or an error page (`src/routes/new/+page.ts`);
- the records exchanged with the backend (`src/lib/models/`), as datatypes.

Modules, one per file:

- `Wrappers`: `Option`.
- `JsText`: the JavaScript string behaviour the client relies on.
  - `trim` (white space as ECMA-262 sections 12.2 and 12.3 define it);
  - the template-literal text of booleans, `null` and integers;
  - the default order of `Array.prototype.sort` on strings.
- `Models`: the records.
- `Errors`: `APIError` and the `PasteError` family, with `fromAPIError` and
  `toAPIError`.
- `Patterns`: the file-name patterns `\.(a|b|…)$` and what `test` makes of
  them. A pattern is a list of alternatives. Each alternative is literal
  text, or, for `nginx.conf`, text with one "any character" atom.
- `Types`: the table `acceptedTypes` and `getType`, `getAllTypes`,
  `extractTypeFromName`, `extractNameFromName`, `extractTypeFromDocument`,
  `extractNameFromDocument`, `DEFAULT_MIME` and `DEFAULT_TYPE`.
  - The table is a sequence of its 126 entries, in the order they are
    written. No key is integer-like, so `for…in` and `Object.keys` visit
    the keys in exactly that order.
  - Every lookup is "the first entry that meets a criterion" (`Find`).
- `TypeFacts`: what the lookups give on the table as written.
  - The keys are distinct.
  - The commented-out entries are absent.
  - Where several entries list the same extension or MIME type, the entry
    written first wins.
- `Backend`: the base URL, the `fetchPaste` address and its status mapping.
  From `uploadPaste` it models the MIME fallback, the multipart body (a
  method that appends part after part, as the source's `forEach` does), the
  query string, the handling of a response that is not ok, and the `catch`
  policy.
- `NewPage`: the `load` function of `src/routes/new/+page.ts`.

Two points about the upload, as `src/lib/backend.ts` writes it:

- `uploadPaste` never throws a `PasteUploadError`. Its `catch` block passes
  a `PasteResponseError` through and turns everything else into a plain
  `PasteError`.
- The upload's form parts are keyed by the document's `name`, not by a
  separate identifier.

## Model

| member | source | states |
|---|---|---|
| JsText.Trim | src/lib/backend.ts:14 | `trim` removes exactly the leading and trailing white space and line terminators; the part kept neither starts nor ends with one |
| JsText.TrimUnique | src/lib/backend.ts:14 | that description pins the trimmed text down uniquely |
| JsText.IntTextInjective | src/lib/backend.ts:50-57 | different integers have different decimal texts, so the JSON text of an expiry determines it |
| JsText.Sort | src/lib/types.ts:1150 | `sort()` returns a permutation of its input in the default string order |
| JsText.SortedPermutationUnique | src/lib/types.ts:1150 | only one sorted permutation exists, so any correct default sort gives the same list |
| Errors.PasteError.Name | src/lib/errors.ts:26-111 | `name` is "PasteUploadError" exactly for an upload error, and "PasteError" for the other two classes |
| Errors.NewPasteError | src/lib/errors.ts:26-32 | a plain `PasteError` keeps the message given |
| Errors.NewPasteResponseError | src/lib/errors.ts:45-73 | the fields are stored as given; the message is the reason, the formatted time in parentheses, ": " and the trace, with `null` standing in for no trace |
| Errors.NewPasteUploadError | src/lib/errors.ts:105-111 | the message is "Upload Failed: " followed by the reason |
| Errors.FromAPIError | src/lib/errors.ts:84-94 | builds a response error with the status given whose `toAPIError` gives back the body it was built from |
| Errors.CallFromAPIError | src/lib/errors.ts:57-94 | calling `fromAPIError` builds the response error exactly when the timestamp is a time value of `Date`; formatting any other timestamp throws a RangeError first |
| Errors.ToAPIError | src/lib/errors.ts:96-102 | copies reason, trace and timestamp |
| Errors.ResponseErrorRoundTrip | src/lib/errors.ts:84-102 | a constructed response error is rebuilt by `fromAPIError` from its status and its `toAPIError()` |
| Errors.FromAPIErrorInjective | src/lib/errors.ts:84-94 | different statuses or error bodies give different errors |
| Patterns.TestIsRegexSearch | src/lib/types.ts:20 | the end-of-name test agrees with a search for a dot followed by text one alternative matches atom by atom up to the end |
| Patterns.NoDotNoMatch | src/lib/types.ts:20 | a name without a dot matches no pattern |
| Patterns.DottedName | src/lib/types.ts:20 | for `stem.ext` with a dot-free `ext`, a literal alternative matches exactly when it is `ext`; a wildcard alternative matches only if `ext` is its last part or has its length |
| Patterns.SingleWildcard | src/lib/types.ts:652 | `nginx.conf` as a pattern accepts `nginx`, any one character that is not a line terminator, then `conf` |
| Types.Find | src/lib/types.ts:1194-1202 | the `for…in` search returns the index of the first entry meeting the criterion, and null exactly when no entry meets it |
| Types.GetType | src/lib/types.ts:1130-1138 | null exactly when no entry has the key; otherwise the value of the entry under that key |
| Types.GetAllTypes | src/lib/types.ts:1148-1153 | unordered: the keys in table order; ordered: a sorted permutation of them |
| Types.ExtractTypeFromName | src/lib/types.ts:1193-1203 | the value of the first entry whose pattern matches the name; null exactly when none matches |
| Types.ExtractNameFromName | src/lib/types.ts:1235-1245 | the key of the first entry whose pattern matches the name; null exactly when none matches |
| Types.ExtractTypeFromDocument | src/lib/types.ts:1164-1182 | the first entry whose MIME type is the document's type; else the result for the document's name |
| Types.ExtractNameFromDocument | src/lib/types.ts:1214-1228 | the key of the first entry whose MIME type and pattern both fit the document; else the result for the document's name |
| Types.GetTypeAsWritten | src/lib/types.ts:1130-1138 | `acceptedTypes[name]` as written: a table entry, or else an inherited `Object.prototype` member of that name, never null for one |
| TypeFacts.KeysDistinct | src/lib/types.ts:16-1120 | no two entries of the table share a key |
| TypeFacts.GetTypeFindsEveryEntry | src/lib/types.ts:1130-1138 | `getType` returns every entry's value under its own key |
| TypeFacts.CommentedOutNamesAreNotKeys | src/lib/types.ts:248-257 | "Dockerfile", "DotEnv" and "Makefile" (commented out at 248-257 and 588-592) are not keys |
| TypeFacts.KeysAreCaseSensitive | src/lib/types.ts:128-132 | "C" is a key and "c" is not |
| TypeFacts.NameAndTypeAgree | src/lib/types.ts:1193-1245 | the two name-based lookups are null together, and the key found gives the type found |
| TypeFacts.AllTypesWithoutRepeats | src/lib/types.ts:1148-1153 | `getAllTypes` lists no key twice, sorted or not |
| TypeFacts.NamesWithoutDotHaveNoType | src/lib/types.ts:1193-1245 | a name without a dot has no type and no key |
| TypeFacts.BareCHasNoType | src/lib/types.ts:128-132 | `c` is one of C's extensions, yet the bare name `c` has no type |
| TypeFacts.NginxTakesAnyCharacter | src/lib/types.ts:650-654 | Nginx's pattern accepts any character but a line terminator between `nginx` and `conf` |
| TypeFacts.NginxConfNamesAreNginx | src/lib/types.ts:650-654 | every name ending in `.nginx.conf` is Nginx |
| TypeFacts.MimesSharedLater | src/lib/types.ts:128-507 | C++ has C's MIME type and JSON with Comments has JavaScript's |
| TypeFacts.CMimeIsC | src/lib/types.ts:1164-1182 | a document typed `text/x-c` is C, not C++, since C is written first |
| TypeFacts.JavaScriptMimeIsJavaScript | src/lib/types.ts:1164-1182 | a document typed `text/javascript` is JavaScript |
| TypeFacts.OnlyTextIsPlain | src/lib/types.ts:1115-1119 | the last entry, Text, is the only one with MIME type `text/plain` |
| TypeFacts.DefaultTypeIsText | src/lib/types.ts:1247-1260 | `DEFAULT_TYPE` is a key: its entry has MIME type `DEFAULT_MIME`, and no other entry has |
| TypeFacts.PlainTextDocumentsAreText | src/lib/types.ts:1164-1182 | a document typed `DEFAULT_MIME` resolves to `DEFAULT_TYPE`'s entry whatever its name |
| TypeFacts.CppDocumentUnderCMime | src/lib/types.ts:1214-1228 | a `.cpp` document typed `text/x-c` is named C++ by `extractNameFromDocument` but typed C by `extractTypeFromDocument` |
| TypeFacts.HeaderNamesAreC | src/lib/types.ts:1235-1245 | `.h` is listed by C, Objective C and Objective C++; such a name is C |
| TypeFacts.JsonNamesAreJson | src/lib/types.ts:1235-1245 | `.json` is listed by JSON, JSON5 and JSON with Comments; such a name is JSON |
| TypeFacts.VNamesAreCoq | src/lib/types.ts:1235-1245 | `.v` names are Coq, the first entry that lists `v` |
| TypeFacts.PlNamesArePerl | src/lib/types.ts:1235-1245 | `.pl` names are Perl, the first entry that lists `pl` |
| TypeFacts.PmNamesArePerl | src/lib/types.ts:1235-1245 | `.pm` names are Perl, the first entry that lists `pm` |
| TypeFacts.PpNamesArePascal | src/lib/types.ts:1235-1245 | `.pp` names are Pascal, the first entry that lists `pp` |
| TypeFacts.MNamesAreMatlab | src/lib/types.ts:1235-1245 | `.m` names are MATLAB, the first entry that lists `m` |
| TypeFacts.MatNamesAreMatlab | src/lib/types.ts:1235-1245 | `.mat` names are MATLAB |
| TypeFacts.TexNamesAreLatex | src/lib/types.ts:1235-1245 | `.tex` names are LaTeX |
| TypeFacts.XslNamesAreXml | src/lib/types.ts:1235-1245 | `.xsl` is listed by XML and XSL; such a name is XML |
| TypeFacts.SNamesAreAssembly | src/lib/types.ts:1235-1245 | `.s` and `.S` names are both Assembly |
| TypeFacts.PNamesFollowCase | src/lib/types.ts:1235-1245 | extensions are compared case-sensitively: `.P` is Prolog, `.p` is Pascal |
| TypeFacts.RNamesAreR | src/lib/types.ts:1235-1245 | `.r` and `.RData` names are R |
| TypeFacts.PrototypeMembersAreNotKeys | src/lib/types.ts:1130-1138 | corrected `getType` returns null for every inherited `Object.prototype` member name |
| TypeFacts.InheritedMembersAreFoundAsWritten | src/lib/types.ts:1131-1137 | `getType` as written returns something that is not null for each of those names, although none is a key |
| Backend.DropTrailingSlash | src/lib/backend.ts:14 | `replace(/\/$/, "")` drops one final slash and changes nothing else |
| Backend.VersionText | src/lib/backend.ts:12-14 | the path segment `/v${VERSION}` is "/v1" |
| Backend.ApiBaseUrl | src/lib/backend.ts:14 | the base URL ends in "/v1", and what precedes it is the trimmed configured URL less at most one final slash |
| Backend.ApiBaseUrlNormalises | src/lib/backend.ts:14 | for a trimmed URL, any leading and trailing runs of white space and line terminators give the same base URL, and so does one extra final slash, alone or inside such padding |
| Backend.FetchPasteUrl | src/lib/backend.ts:23-25 | the address is the base, "/pastes/", the id and "?content=true" or "?content=false" |
| Backend.FetchPasteUrlInjective | src/lib/backend.ts:23-25 | different ids or content flags give different addresses |
| Backend.ThrowAPIError | src/lib/backend.ts:34 | `throw fromAPIError(status, body)` throws the response error built from the body exactly when the body is an error body whose timestamp is a time value; a `null` body throws a TypeError when its `reason` is read, and a bad timestamp throws a RangeError |
| Backend.FetchPaste | src/lib/backend.ts:18-36 | rejection or unreadable body throws; an ok status gives the paste, or null when the body is `null`; 404 gives null; any other status throws as `ThrowAPIError` says; a response error thrown never has status 404 or an ok status |
| Backend.FetchPasteNull | src/lib/backend.ts:27-32 | `fetchPaste` gives null exactly for a 404 answer and for an ok answer whose body is `null` |
| Backend.PartMime | src/lib/backend.ts:60-71 | a document's MIME type is `typeToMime`'s answer, else `fileTypeToMime`'s, else `DEFAULT_MIME` |
| Backend.PayloadJson | src/lib/backend.ts:50-57 | the payload is `{}` without an expiry and `{"expiry":n}` with one |
| Backend.PayloadJsonInjective | src/lib/backend.ts:50-57 | different expiry settings give different payloads |
| Backend.FormParts | src/lib/backend.ts:54-74 | one JSON "payload" part, then one part per document in order, named after it, carrying its content and its MIME type |
| Backend.BuildForm | src/lib/backend.ts:48-74 | appending the payload part and then one part per document, as the `forEach` does, gives exactly `FormParts` |
| Backend.UploadQuery | src/lib/backend.ts:76-80 | empty exactly when `content` is undefined, else "?content=" and the flag |
| Backend.UploadUrl | src/lib/backend.ts:82 | the upload address is the base, "/pastes" and the query |
| Backend.CatchPolicy | src/lib/backend.ts:97-104 | a response error is thrown again as it is; any other error becomes a `PasteError` with its message, a non-`Error` value "Unknown Error"; never an upload error |
| Backend.CatchPolicyIdempotent | src/lib/backend.ts:97-104 | passing an error the policy produced through it again changes nothing |
| Backend.UploadAttempt | src/lib/backend.ts:82-96 | an ok response gives its body as the paste (null for a `null` body); any other response throws as `ThrowAPIError` says; a rejection or an unreadable body is thrown on |
| Backend.UploadPaste | src/lib/backend.ts:43-105 | the result is what the server answered to `FormParts` at the upload address, with a thrown value passed through the catch policy; `settings` defaults to no settings |
| Backend.UploadErrors | src/lib/backend.ts:88-104 | an upload error is never a `PasteUploadError`; it is a response error exactly when the server answered with a non-ok status and an error body whose timestamp is a time value, and then it carries that status |
| NewPage.Load | src/routes/new/+page.ts:6-49 | page data exactly when a config came back, carrying that config; every error page has no paste id; the status and fields of each error page, case by case |
| NewPage.BackendErrorReachesPage | src/routes/new/+page.ts:11-19 | a response error built from a backend error body reaches the page with its status, trace and timestamp |
| NewPage.NotFoundPageIsDistinct | src/routes/new/+page.ts:40-47 | an error page with a trace and no timestamp comes exactly from a null config |
| NewPage.ServerErrorPages | src/routes/new/+page.ts:20-37 | an error page with neither trace nor timestamp comes exactly from a thrown value that is not a response error, and has status 501 |

## Left out

- Networking: `fetch`, `FormData`, `Blob` and promises are not modelled.
  - A request is a function from the address (and, for an upload, the form
    parts) to its settled answer.
  - A response body is JSON read as a paste or as an error body, or text
    that is not JSON.
- `console.log` of the backend error in `uploadPaste` is left out. It is
  output only.
- The `Intl.DateTimeFormat` text of a timestamp is a function parameter
  (`format`). Locale formatting is outside the model.
- `typeToMime` and `fileTypeToMime` are function parameters of the upload.
  `src/lib/backend.ts` imports them from `src/lib/types.ts`, which does not
  define them.
- `fetchConfig` is not part of this model. `NewPage.Load` takes the outcome
  of that call as its input.
- SvelteKit's `error(status, body)` is modelled as an error-page result. How
  the framework renders it is outside the model.
- Strings are sequences of Unicode scalar values, where JavaScript uses
  UTF-16 code units. The two agree below U+10000.
  - `trim` and the default sort order are exact for such text.
- JSON numbers are integers here. The expiry and the timestamps are `int`,
  and their text is the decimal text of an integer.
- Backend.PayloadJson, Backend.PayloadJsonInjective: hold for every integer
  expiry. `JSON.stringify` prints the decimal text only for an integer that a
  Number holds exactly and that is below 10^21 in magnitude. From 10^21 on it
  prints exponent form such as `1e+21`, which the model does not cover.
- Backend.FetchPaste, Backend.UploadErrors: a JSON body other than `null`
  is taken to have the shape of a `Paste` and of an `APIError`. The model does
  not cover other shapes.
  - A body that lacks a field reads it as `undefined`, and the result is a
    value that is no `Paste`. A missing `reason` or `trace` puts "undefined"
    into the error message. A missing `timestamp` does not: formatting
    `undefined` formats the current time, so the message holds the date of
    the moment it was built.
  - A body that is a number, a string or a list is handled the same way.
- The messages of the TypeError for a `null` error body and of the RangeError
  for a timestamp that is no time value are the ones V8 gives. Other engines
  word them differently.
- `DEFAULT_SHIKI` (`Types.DefaultShiki`) and the `shiki` field are carried
  as data only. The highlighter is outside the core.
- Which entry wins for a shared extension is proved for every shared
  extension, plus `conf` and the wildcard. No general statement is proved
  for arbitrary names, because the 126-entry table is too large to unfold
  for a symbolic word.
- Backend.ApiBaseUrl: appends the literal "/v1". `Backend.VersionText`
  proves that this is the text for `VERSION`.
- The other routes and pages, `src/hooks.server.ts`, the Svelte components
  and the build configuration are not part of this model.

## Findings

| source | as written | input that shows it | evidently intended | confidence | as-written member | corrected member |
|---|---|---|---|---|---|---|
| src/lib/types.ts:1131-1137 | `acceptedTypes[name]` reads inherited properties, so `getType` returns `Object.prototype` members (functions, or the prototype for `__proto__`) as if they were types | `getType("toString")` returns not null, though no entry has that key | null for every name that is not a key of the table | medium, not executed | TypeFacts.InheritedMembersAreFoundAsWritten (about `Types.GetTypeAsWritten`) | TypeFacts.PrototypeMembersAreNotKeys (about `Types.GetType`) |
