# Electronic signature workflow — a Dafny model

This project models the core of a small Node.js electronic-signature service. The service works in two phases.

- **Generation.** `POST /generate-document` copies a Google Docs template under a name built from the template's title and the signer's names. It replaces every `{{ key }}` placeholder of the copy with the submitted value and exports the copy to `./documents/<name>.pdf`. It then mints a numeric SMS code and appends a record `{id, name, documentId, smsCode}` to a lowdb database, which it writes to disk.
- **Signing.** `POST /sign/:id` re-reads the database, finds the record whose `id` is the numeric value of the route parameter, and compares the submitted code with the stored one. On a mismatch it answers 401. On a match it does three things: it replaces `{{ signature }}` in the copy with the signer's PNG image at 150×150, fills `{{ mention }}` with a "signed digitally" statement, and re-exports the PDF. The re-export then puts a placeholder for a signature into the PDF and signs it with a P12 certificate, overwriting the same file.

Every call to Google, to the `gdoctableapp` image library, to the file system, to `node-signpdf` and to lowdb is recorded as an abstract `Effect` in a log (`Effects.World`). The model keeps no remote document content and no file bytes. The provider's answers are parameters of the methods: the template's title, the copy's id, whether the export stream ends or fails, and what the image library reports. So are the clock readings and the random draw.

Modules:

- `Wrappers` holds `Option`.
- `Effects` holds the request and effect vocabulary, the effect log, and counts of stamping and signing steps.
- `Store` is lowdb. `documents` is `db.data.documents` in memory, and `file` is what `db.json` holds. `read` copies the file into memory, and `write` copies memory into the file.
- `DocumentGenerator` covers `src/services/document-generator.js`. It has the request, name and path functions, one function per step giving that step's effect sequence, and the class `DocumentGeneratorService`. Each of the class's methods is proved to perform exactly that step's sequence.
- `Server` covers `index.mjs`: the record lookup, the one-time-code gate and the two POST handlers.

Because the state on disk is modelled on its own, one behaviour of the program as written is visible. The database is created with `{ documents: [] }` and is not read at startup. After a restart, a generation request that arrives before any request to `/sign/:id`, GET or POST, appends to the empty list. It then writes that one-record list over `db.json` (`PostGenerateDocument` ensures `file == old(documents) + [record]`, whatever `old(file)` was). This is listed under "## Findings".

Unary `+` of JavaScript appears as `normalise: string -> Option<int>`. `None` stands for `NaN` or a non-integer, and neither is `===` to a stored integer. A handler promise that rejects, or a handler that throws, is the reply `NoReply`: the handler itself never sends a response.

## Model

| member | source | states |
|---|---|---|
| `DocumentGenerator.Lookup` | src/services/document-generator.js:92 | `information.firstname`: no value (`undefined`) exactly when no field has the key, otherwise the value of the field with that key (an `Information` has distinct keys, as a parsed JSON object does) |
| `DocumentGenerator.CopyName` | src/services/document-generator.js:92 | the copy's name `${title}_${firstname}_${lastname}`; its properties are stated by `CopyNameParts` |
| `DocumentGenerator.CopyNameParts` | src/services/document-generator.js:92 | the copy's name is title, first name and last name joined by `_` (a missing name shows as `undefined`); splitting it at `_` gives the three back when none of them holds an underscore |
| `DocumentGenerator.Placeholder` | src/services/document-generator.js:113 | the pattern `{{ key }}`; its properties are stated by `PlaceholderRoundTrip` |
| `DocumentGenerator.PlaceholderRoundTrip` | src/services/document-generator.js:113 | the pattern `{{ key }}` gives back its key, and a text whose read-back key is `k` is exactly the pattern of `k` |
| `DocumentGenerator.FillRequest` | src/services/document-generator.js:110-118 | the `replaceAllText` request for one key; its properties are stated by `FillRequests` and `FillRequestsLookup` |
| `DocumentGenerator.FillRequests` | src/services/document-generator.js:109-119 | exactly one `replaceAllText` request per key, in key order, with text `{{ key }}`, `matchCase` true and the key's value as replacement |
| `DocumentGenerator.FillRequestsLookup` | src/services/document-generator.js:109-119 | since an object's keys are distinct, request `i` names key `i` in its pattern and replaces it with `information[key]` |
| `DocumentGenerator.Mention` | src/services/document-generator.js:75 | the text that fills `{{ mention }}`, which embeds the date text; `SigningOrder` states that exactly this one request is sent |
| `DocumentGenerator.StripPngPrefix` | src/services/document-generator.js:141 | a leading `data:image/png;base64,` is removed and the rest kept; any other input is returned unchanged |
| `DocumentGenerator.StripPngPrefixOnce` | src/services/document-generator.js:141 | the anchored prefix is removed once only: a doubled prefix leaves one copy |
| `DocumentGenerator.Decimal` | src/services/document-generator.js:142 | `${Date.now()}` is a non-empty string of decimal digits |
| `DocumentGenerator.DecimalRoundTrip` | src/services/document-generator.js:142 | the digits read back as the clock value |
| `DocumentGenerator.DecimalInjective` | src/services/document-generator.js:142 | distinct clock readings name distinct staged image files |
| `DocumentGenerator.ImagePath` | src/services/document-generator.js:142 | the staged image `./documents/${Date.now()}.png`; `DecimalRoundTrip` and `DecimalInjective` state that the clock reading determines it |
| `DocumentGenerator.PdfPath` | src/services/document-generator.js:202 | the export target `./documents/${name}.pdf`; `PdfPathInjective` states that it determines the name |
| `DocumentGenerator.PdfPathInjective` | src/services/document-generator.js:202 | the export path `./documents/<name>.pdf` determines the name: distinct names never share a PDF path |
| `DocumentGenerator.SmsCode` | src/services/document-generator.js:53 | `Math.floor(Math.random() * 900000)` is an integer in [0, 899999] |
| `DocumentGenerator.SmsCodeReachable` | src/services/document-generator.js:53 | every code in [0, 899999] comes from some draw in [0, 1) |
| `DocumentGenerator.InsertEffects` | src/services/document-generator.js:141-155 | the two steps of `insertSignature` (stage the image, replace the marker by it); `SigningOrder` states their order and arguments |
| `DocumentGenerator.StampEffects` | src/services/document-generator.js:173-189 | the five steps of `numericSignDocument`; `StampOrder` states their order and counts |
| `DocumentGenerator.StampOrder` | src/services/document-generator.js:172-189 | the stamp reads the PDF at `path`, adds the placeholder (reason `Signature process end.`, length 1612) before signing, signs exactly once and writes back to the same `path` |
| `DocumentGenerator.ExportEffects` | src/services/document-generator.js:202-227 | the steps of `exportPdf`, including the optional stamp; `ExportOrder` states their order and counts |
| `DocumentGenerator.ExportOrder` | src/services/document-generator.js:201-228 | the write stream is opened on the path before the `application/pdf` export is requested; the stamp steps on that same path follow exactly when `needStamp` holds and the stream ended, signing once; otherwise, and on a stream error, nothing follows |
| `DocumentGenerator.GenerationEffects` | src/services/document-generator.js:48-62 | the steps of `generateDocument` up to `db.write`; `GenerationOrder` and `GenerationNeverStamps` state their order and counts |
| `DocumentGenerator.GenerationOrder` | src/services/document-generator.js:47-62 | generation reads the template, copies it from the template id under the derived name, fills the copy id (not the template), opens `./documents/<name>.pdf`, exports the copy, and writes the database last and only when the stream ended |
| `DocumentGenerator.GenerationNeverStamps` | src/services/document-generator.js:47-62 | generation takes no stamping step and signs no PDF |
| `DocumentGenerator.SigningEffects` | src/services/document-generator.js:71-77 | the steps of `handleSign`; `SigningOrder` and `SigningSignsOnce` state their order and counts |
| `DocumentGenerator.SigningOrder` | src/services/document-generator.js:70-78 | signing, all on the record's copy: the decoded image is staged and replaces `{{ signature }}` at 150×150; then exactly one request fills `{{ mention }}`; then `./documents/<name>.pdf` is opened and the copy exported; when the stream ends the last write is to that same PDF |
| `DocumentGenerator.SigningSignsOnce` | src/services/document-generator.js:70-78 | a signing run signs the PDF exactly once when the export stream ends and never otherwise |
| `DocumentGenerator.DocumentGeneratorService.constructor` | src/services/document-generator.js:15-16 | the service keeps the database it is given |
| `DocumentGenerator.DocumentGeneratorService.CreateCopy` | src/services/document-generator.js:87-100 | reads the template, copies it under `CopyName`, and returns that name and the copy's id |
| `DocumentGenerator.DocumentGeneratorService.FillInformation` | src/services/document-generator.js:108-129 | a single `batchUpdate` on the given id carrying `FillRequests(information)` |
| `DocumentGenerator.DocumentGeneratorService.InsertSignature` | src/services/document-generator.js:139-165 | stages the stripped data at `./documents/<now>.png`, asks for `{{ signature }}` to become that image at 150×150, and resolves with the library's answer, error or not |
| `DocumentGenerator.DocumentGeneratorService.NumericSignDocument` | src/services/document-generator.js:172-192 | performs `StampEffects(filePath)` |
| `DocumentGenerator.DocumentGeneratorService.ExportPdf` | src/services/document-generator.js:201-229 | performs `ExportEffects`; resolves with `./documents/<name>.pdf` when the stream ends and rejects on a stream error |
| `DocumentGenerator.DocumentGeneratorService.GenerateDocument` | src/services/document-generator.js:47-65 | performs `GenerationEffects`; when the export ends it appends exactly one record `{now, name, copy id, code in range}`, keeps all earlier records and writes the whole list to the file; on a stream error it rejects with the database untouched |
| `DocumentGenerator.DocumentGeneratorService.HandleSign` | src/services/document-generator.js:70-78 | performs `SigningEffects` and changes nothing but the effect log (no record is touched); resolves exactly when the export ends |
| `Store.Db.constructor` | index.mjs:15-17 | the database starts with an empty in-memory list; the file is not read |
| `Store.Db.Read` | index.mjs:61 | the in-memory list becomes the file's contents |
| `Store.Db.Write` | src/services/document-generator.js:62 | the file becomes the in-memory list |
| `Server.Find` | index.mjs:62 | `find`: no record exactly when no record's id is the coerced parameter; otherwise the first record whose id it is |
| `Server.Gate` | index.mjs:64-66 | no record gives the thrown error; the gate accepts exactly when the coerced code equals the stored `smsCode` and otherwise refuses with that record |
| `Server.SignDecision` | index.mjs:62-64 | the gate applied to the lookup of the coerced id; `SignDecisionAccepts` and `WrongCodeRefused` state when it accepts and refuses |
| `Server.SignDecisionAccepts` | index.mjs:62-66 | the gate accepts a record if and only if it is the first stored record with the requested id and its stored code is the coerced submitted code |
| `Server.WrongCodeRefused` | index.mjs:64-66 | when no stored record with that id holds the submitted code, the decision is a refusal |
| `Server.PostGenerateDocument` | index.mjs:41-45 | performs generation and answers `ok` only after it has resolved; no answer when it rejects |
| `Server.PostSign` | index.mjs:60-71 | re-reads the records and never changes them; without a record the handler throws after the read; on a mismatch it answers 401 with no effect but the read; on a match `handleSign` runs once on the found record and `ok` follows only if it resolves |
| `Server.SignTwice` | index.mjs:60-71 | with no status change, the same code passes the gate a second time, and the PDF is signed once per request |
| `Server.RestartThenGenerate` | index.mjs:15-17 | as written, a fresh process over a stored file answers a generation by writing only the new record to the file; for any non-empty stored list the stored records are not kept |
| `Server.RestartReadThenGenerate` | index.mjs:41-45 | with `db.read()` at start-up, a generation writes the stored records followed by the new one |

## Left out

- Google Docs and Drive calls and `gdoctableapp` are abstract effects. Their answers are parameters, and the model assumes `documents.get`, `files.copy`, `batchUpdate` and the `files.export` request itself resolve. A rejection of any of them would propagate unchanged in the source.
- The export stream's end and error events are modelled. That `end` is handled while the piped file may still be being flushed is not: it is stream concurrency.
- `node-signpdf` (`plainAddPlaceholder`, `SignPdf.sign`) is only the ordered pair of effects on one path. Its exceptions (bad PDF, wrong passphrase) are left out because the library's code is not part of this model. In the source such an exception would leave the `exportPdf` promise forever pending.
- File contents, base64 decoding, the P12 file and the environment variables (`P12_CERTIFICATE`, `P12_PASSWORD`, `PORT`, `CREDENTIALS_PATH`) are I/O and configuration. The effects record paths and texts only.
- `console.log`, including the line that delivers the link and the SMS code, is output I/O.
- The constructor's un-awaited `authorize()` and the `drive`, `docs` and `auth` fields it sets are left out. That is a promise-ordering concern.
- `Date.now()`, `Date().toString()` and `Math.random()` are parameters. The draw is an exact real in [0, 1), so IEEE rounding of the product is not modelled.
- JavaScript's `Number` coercion is the parameter `normalise`. The submitted code is taken in its textual form, whether the body held a string or a number.
- `Object.keys` order is the order of the `Information` sequence. The rule that integer-like keys come first is not modelled, and field values are strings.
- `GET /sign/:id` (nunjucks rendering), Express routing and body parsing are HTTP and UI plumbing. What Express does with a rejected handler promise is not modelled beyond `NoReply`.
- File-system and lowdb-write failures are assumed not to happen. These are: `fs.writeFileSync` throwing inside the `insertSignature` executor (which would reject that promise), an error on the export's write stream (it has no error listener), a failing read of the P12 file, and a rejected `db.write()` after the push (which would leave memory and file out of step). `InsertSignature` resolving whatever the library reports holds under this assumption.
- A missing `db.json` is modelled as an empty `file`. lowdb's JSON serialisation is left out.
- Concurrent requests and races between them are left out.
- Hardening that the code does not have (explicit status, code expiry, single use, locking) is not modelled. `Server.SignTwice` shows its absence.
- A non-string `signature` or a missing `information` would throw in the source. The model's types rule these out.

## Findings

| source | as written | input that shows it | evidently intended | confidence | as-written member | corrected member |
|---|---|---|---|---|---|---|
| index.mjs:15-17 | the database is created with `{ documents: [] }` and not read before serving; `generateDocument` pushes into that list and writes it | a restart over a `db.json` holding one record, followed by `POST /generate-document` before any `/sign/:id` request: the file afterwards holds only the new record | read `db.json` once at start-up, so that a generation appends to the stored records | medium, not executed | `Server.RestartThenGenerate` | `Server.RestartReadThenGenerate` |
